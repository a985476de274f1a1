/**
 * What applying a batch of software records through snapd does, as a
 * function of the daemon: the reference behaviour against which both
 * batch loops (the agent module's `installSnap` and the snap package
 * manager's `install_software`) are proved.
 */
module SnapBatch {
  import opened Wrappers
  import opened Text
  import opened SmartRest
  import opened Snapd

  const ChannelSeparator := "##"

  /** The version requested in a record's version field: the text before the first "##". */
  function Version(field: string): (version: string) {
    Split(field, ChannelSeparator)[0]
  }

  /** The channel requested in a record's version field: the text after the last "##". */
  function Channel(field: string): (channel: string) {
    var parts := Split(field, ChannelSeparator);
    parts[|parts| - 1]
  }

  /**
   * With a "##", the version is the text before the first one and the channel
   * is the "##"-free text after the last one; a version field without "##"
   * is both the version and the channel.
   */
  lemma {:induction false} VersionChannel(field: string)
    ensures Contains(field, ChannelSeparator) ==>
      Find(field, ChannelSeparator).Some? && Version(field) == field[..Find(field, ChannelSeparator).value]
    ensures Contains(field, ChannelSeparator) ==>
      !Contains(Channel(field), ChannelSeparator) && EndsWith(field, ChannelSeparator + Channel(field))
    ensures !Contains(field, ChannelSeparator) ==> Version(field) == field && Channel(field) == field
  {
    SplitHead(field, ChannelSeparator);
    SplitLastPiece(field, ChannelSeparator);
    FindSpec(field, ChannelSeparator);
    if Contains(field, ChannelSeparator) {
      SplitLastSuffix(field, ChannelSeparator);
    }
  }

  /**
   * The inventory writes a snap as `version##channel`; reading that field back
   * gives the version and the channel again, provided neither introduces a
   * "##" of its own (the version may not end in '#').
   */
  lemma {:induction false} VersionChannelRoundTrip(v: string, c: string)
    requires !Contains(v + "#", ChannelSeparator) && !Contains(c, ChannelSeparator)
    ensures Version(v + ChannelSeparator + c) == v
    ensures Channel(v + ChannelSeparator + c) == c
  {
    var s := v + ChannelSeparator + c;
    assert OccursAt(s, ChannelSeparator, |v|) by {
      assert s[|v|..|v| + 2] == ChannelSeparator;
    }
    forall j: nat | j < |v|
      ensures !OccursAt(s, ChannelSeparator, j)
    {
      assert s[j..j + 2] == (v + "#")[j..j + 2];
      assert !OccursAt(v + "#", ChannelSeparator, j);
    }
    var found := Find(s, ChannelSeparator);
    FindSpec(s, ChannelSeparator);
    assert found == Some(|v|);
    assert s[|v| + 2..] == c;
    SplitHead(c, ChannelSeparator);
  }

  /** Which of the two batch loops is meant: they differ in the actions and status codes they handle. */
  datatype Flavor =
    | AgentModule   // SoftwareManager.installSnap in the agent module
    | SnapBackend   // SnapDPackageManager.install_software

  /** The snapd request a record asks for, if any. */
  function Request(flavor: Flavor, rec: seq<string>): (call: Option<Call>)
    ensures call.Some? <==>
      |rec| >= 5 && (rec[4] == "install" || rec[4] == "update" || (flavor == SnapBackend && rec[4] == "delete"))
    ensures call.Some? ==> IsPost(call.value) && call.value.name == rec[0]
  {
    if |rec| < 5 then None
    else
      var name, channel, action := rec[0], Channel(rec[1]), rec[4];
      if action == "install" then Some(InstallCall(name, channel))
      else if action == "update" then Some(RefreshCall(name, channel, flavor == AgentModule && name == "c8ycc"))
      else if action == "delete" && flavor == SnapBackend then Some(RemoveCall(name))
      else None
  }

  /** Status codes after which the loop waits for the change. */
  predicate Polls(flavor: Flavor, code: int) {
    match flavor
    case AgentModule => code == 202
    case SnapBackend => code == 200 || code == 201 || code == 202
  }

  /** The error a finished change adds: its error text, unless that is absent or empty (falsy). */
  function ChangeError(s: ChangeStatus): (error: Option<string>) {
    if s.error.Some? && s.error.value != "" then s.error else None
  }

  datatype ItemOutcome = Applied(error: Option<string>) | Crashed(fault: Fault)

  /**
   * What the loop does with snapd's answer to a record's request: a missing
   * answer is subscripted and raises, a rejection adds
   * "Snap<name> error: <message>", an accepted change is waited for and adds
   * its error, if any.
   */
  function Respond(d: Daemon, name: string, reply: Option<Reply>, flavor: Flavor): (r: (ItemOutcome, Daemon)) {
    if reply.None? then (Crashed(NoneNotSubscriptable), d)
    else if reply.value.statusCode >= 400 then
      (Applied(Some("Snap" + name + " error: " + reply.value.message)), d)
    else if !Polls(flavor, reply.value.statusCode) then (Applied(None), d)
    else
      var (status, d1) := Await(d, reply.value.change);
      if status.None? then (Crashed(NoneNotSubscriptable), d1)
      else (Applied(ChangeError(status.value)), d1)
  }

  /** Applying one record: at most one error, or an exception. */
  function ApplyItem(d: Daemon, rec: seq<string>, flavor: Flavor): (r: (ItemOutcome, Daemon)) {
    if |rec| < 5 then (Crashed(IndexOutOfRange), d)
    else match Request(flavor, rec)
      case None => (Applied(None), d)
      case Some(call) =>
        var (reply, d1) := Post(d, call);
        Respond(d1, rec[0], reply, flavor)
  }

  datatype BatchOutcome = Finished(errors: seq<string>) | Aborted(fault: Fault)

  function OptionToSeq<T>(e: Option<T>): (xs: seq<T>) {
    if e.Some? then [e.value] else []
  }

  /** Applying the records in order, collecting errors; an exception abandons the rest. */
  function ApplyBatch(d: Daemon, items: seq<seq<string>>, flavor: Flavor): (r: (BatchOutcome, Daemon))
    decreases |items|
  {
    if items == [] then (Finished([]), d)
    else
      var (o, d1) := ApplyItem(d, items[0], flavor);
      if o.Crashed? then (Aborted(o.fault), d1)
      else
        var (rest, d2) := ApplyBatch(d1, items[1..], flavor);
        if rest.Aborted? then (rest, d2) else (Finished(OptionToSeq(o.error) + rest.errors), d2)
  }

  /** Prefixing the errors collected so far to the outcome of the remaining records. */
  function Resume(errors: seq<string>, rest: (BatchOutcome, Daemon)): (r: (BatchOutcome, Daemon)) {
    if rest.0.Aborted? then rest else (Finished(errors + rest.0.errors), rest.1)
  }

  /** One iteration of the batch loop: the outcome of the whole batch is resumed from the outcome of the rest. */
  lemma {:induction false} BatchStep(d: Daemon, errors: seq<string>, items: seq<seq<string>>, i: nat, flavor: Flavor)
    requires i < |items|
    ensures var (o, d1) := ApplyItem(d, items[i], flavor);
      Resume(errors, ApplyBatch(d, items[i..], flavor)) ==
        if o.Crashed? then (Aborted(o.fault), d1)
        else Resume(errors + OptionToSeq(o.error), ApplyBatch(d1, items[i + 1..], flavor))
  {
    assert items[i..][0] == items[i];
    assert items[i..][1..] == items[i + 1..];
    var (o, d1) := ApplyItem(d, items[i], flavor);
    if o.Applied? {
      var e := OptionToSeq(o.error);
      var rest := ApplyBatch(d1, items[i + 1..], flavor);
      if rest.0.Finished? {
        assert errors + (e + rest.0.errors) == errors + e + rest.0.errors;
      }
    }
  }

  /** A batch is abandoned only on a short record or on a missing answer from snapd. */
  lemma {:induction false} AbortedFaults(d: Daemon, items: seq<seq<string>>, flavor: Flavor)
    ensures ApplyBatch(d, items, flavor).0.Aborted? ==>
      ApplyBatch(d, items, flavor).0.fault in {IndexOutOfRange, NoneNotSubscriptable}
    decreases |items|
  {
    if items != [] {
      var (o, d1) := ApplyItem(d, items[0], flavor);
      if o.Applied? {
        AbortedFaults(d1, items[1..], flavor);
      }
    }
  }

  /** Each record adds at most one error. */
  lemma {:induction false} BatchErrorBound(d: Daemon, items: seq<seq<string>>, flavor: Flavor)
    ensures ApplyBatch(d, items, flavor).0.Finished? ==> |ApplyBatch(d, items, flavor).0.errors| <= |items|
    decreases |items|
  {
    if items != [] {
      var (o, d1) := ApplyItem(d, items[0], flavor);
      if o.Applied? {
        BatchErrorBound(d1, items[1..], flavor);
      }
    }
  }

  predicate IsPost(c: Call) {
    c.InstallCall? || c.RefreshCall? || c.RemoveCall?
  }

  /** The POST requests in a request log. */
  function Posts(cs: seq<Call>): (posts: seq<Call>) {
    if cs == [] then [] else (if IsPost(cs[0]) then [cs[0]] else []) + Posts(cs[1..])
  }

  lemma {:induction false} PostsAppend(xs: seq<Call>, ys: seq<Call>)
    ensures Posts(xs + ys) == Posts(xs) + Posts(ys)
  {
    if xs == [] {
      assert xs + ys == ys;
    } else {
      var head: seq<Call> := if IsPost(xs[0]) then [xs[0]] else [];
      assert (xs + ys)[0] == xs[0];
      assert (xs + ys)[1..] == xs[1..] + ys;
      assert Posts(xs + ys) == head + Posts(xs[1..] + ys);
      PostsAppend(xs[1..], ys);
      assert head + (Posts(xs[1..]) + Posts(ys)) == (head + Posts(xs[1..])) + Posts(ys);
    }
  }

  lemma {:induction false} PostsOfPolls(id: string, n: nat)
    ensures Posts(Repeat(ChangeCall(id), n)) == []
  {
    if n > 0 {
      assert Repeat(ChangeCall(id), n)[1..] == Repeat(ChangeCall(id), n - 1);
      PostsOfPolls(id, n - 1);
    }
  }

  /** The requests the records ask for, in record order. */
  function Requests(flavor: Flavor, items: seq<seq<string>>): (calls: seq<Call>) {
    if items == [] then []
    else OptionToSeq(Request(flavor, items[0])) + Requests(flavor, items[1..])
  }

  /** Applying one record appends its request (if any) and change polls to the log. */
  lemma {:induction false} ItemCalls(d: Daemon, rec: seq<string>, flavor: Flavor)
    ensures var (o, d') := ApplyItem(d, rec, flavor);
      |d.calls| <= |d'.calls| && d'.calls[..|d.calls|] == d.calls &&
      (o.Applied? ==> Posts(d'.calls[|d.calls|..]) == OptionToSeq(Request(flavor, rec)))
  {
    var (o, d') := ApplyItem(d, rec, flavor);
    var req := Request(flavor, rec);
    if req.Some? {
      var call := req.value;
      var (reply, d1) := Post(d, call);
      assert d1.calls == d.calls + [call];
      assert Posts([call]) == [call];
      if reply.Some? && reply.value.statusCode < 400 && Polls(flavor, reply.value.statusCode) {
        var id := reply.value.change;
        AwaitScript(d1, id);
        var n :| d'.calls == d1.calls + Repeat(ChangeCall(id), n);
        PostsOfPolls(id, n);
        assert d'.calls[|d.calls|..] == [call] + Repeat(ChangeCall(id), n);
        PostsAppend([call], Repeat(ChangeCall(id), n));
      } else {
        assert d'.calls[|d.calls|..] == [call];
      }
    } else {
      assert d'.calls[|d.calls|..] == [];
    }
  }

  /**
   * Partial failure does not stop a batch: when it finishes, snapd has been
   * sent exactly the requests of all records, in record order, whatever
   * errors earlier records produced.
   */
  lemma {:induction false} BatchAttemptsEveryItem(d: Daemon, items: seq<seq<string>>, flavor: Flavor)
    ensures var (o, d') := ApplyBatch(d, items, flavor);
      |d.calls| <= |d'.calls| && d'.calls[..|d.calls|] == d.calls &&
      (o.Finished? ==> Posts(d'.calls[|d.calls|..]) == Requests(flavor, items))
    decreases |items|
  {
    if items != [] {
      var (o, d1) := ApplyItem(d, items[0], flavor);
      ItemCalls(d, items[0], flavor);
      if o.Applied? {
        BatchAttemptsEveryItem(d1, items[1..], flavor);
        var d2 := ApplyBatch(d1, items[1..], flavor).1;
        ExtendTwice(d.calls, d1.calls, d2.calls);
        PostsAppend(d1.calls[|d.calls|..], d2.calls[|d1.calls|..]);
      }
    }
  }

  /** Two successive extensions of a request log extend it by both suffixes. */
  lemma {:induction false} ExtendTwice(a: seq<Call>, b: seq<Call>, c: seq<Call>)
    requires |a| <= |b| && b[..|a|] == a
    requires |b| <= |c| && c[..|b|] == b
    ensures |a| <= |c| && c[..|a|] == a
    ensures c[|a|..] == b[|a|..] + c[|b|..]
  {
    assert b == a + b[|a|..];
    assert c == b + c[|b|..];
    assert c == a + (b[|a|..] + c[|b|..]);
  }

  /** A batch in which no record asks for anything leaves snapd untouched and reports no error. */
  lemma {:induction false} IdleBatch(d: Daemon, items: seq<seq<string>>, flavor: Flavor)
    requires forall i :: 0 <= i < |items| ==> |items[i]| >= 5 && Request(flavor, items[i]).None?
    ensures ApplyBatch(d, items, flavor) == (Finished([]), d)
    decreases |items|
  {
    if items != [] {
      IdleBatch(d, items[1..], flavor);
      assert ApplyItem(d, items[0], flavor) == (Applied(None), d);
      assert OptionToSeq<string>(None) + [] == [];
    }
  }

  /**
   * A reply with status 400 or above adds "Snap<name> error: <message>" and
   * starts no change poll.
   */
  lemma {:induction false} ItemRejected(d: Daemon, rec: seq<string>, flavor: Flavor)
    requires Request(flavor, rec).Some? && d.replies != [] && d.replies[0].statusCode >= 400
    ensures ApplyItem(d, rec, flavor) ==
      (Applied(Some("Snap" + rec[0] + " error: " + d.replies[0].message)),
       d.(replies := d.replies[1..], calls := d.calls + [Request(flavor, rec).value]))
  {
  }

  /**
   * After an accepted request the record's error is that of the first
   * terminal change reply: present exactly when that reply is an Error with
   * a non-empty error text.
   */
  lemma {:induction false} ItemAwaited(d: Daemon, rec: seq<string>, flavor: Flavor)
    requires Request(flavor, rec).Some? && d.replies != []
    requires d.replies[0].statusCode < 400 && Polls(flavor, d.replies[0].statusCode)
    requires FirstTerminal(d.changes).Some?
    ensures var c := d.changes[FirstTerminal(d.changes).value];
      var (o, d') := ApplyItem(d, rec, flavor);
      o.Applied? &&
      (o.error.Some? <==> c.status == "Error" && c.err != "") &&
      (o.error.Some? ==> o.error.value == c.err) &&
      d'.changes == d.changes[FirstTerminal(d.changes).value + 1..]
  {
    var (_, d1) := Post(d, Request(flavor, rec).value);
    AwaitScript(d1, d.replies[0].change);
  }

  /** A status code outside the polled ones (for the agent module, 200 and 201 too) adds nothing and polls nothing. */
  lemma {:induction false} ItemNotPolled(d: Daemon, rec: seq<string>, flavor: Flavor)
    requires Request(flavor, rec).Some? && d.replies != []
    requires d.replies[0].statusCode < 400 && !Polls(flavor, d.replies[0].statusCode)
    ensures ApplyItem(d, rec, flavor).0 == Applied(None)
    ensures ApplyItem(d, rec, flavor).1.changes == d.changes
  {
  }
}
