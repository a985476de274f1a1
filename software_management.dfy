/**
 * The software-management agent module: it receives software operations
 * from the platform (update without type, update with type, software list),
 * carries them out through the apt backend or through snapd, and publishes
 * the operation's status and the resulting inventory.
 */
module SoftwareManagement {
  import opened Wrappers
  import opened Text
  import opened SmartRest
  import opened Operation
  import opened Snapd
  import opened SnapBatch
  import opened Inventory

  /** An inbound SmartREST message: its topic, template id and values. */
  datatype Inbound = Inbound(topic: string, messageId: string, values: seq<string>)

  /** Topic fragment of operations sent to the device. */
  const DownstreamTopic := "s/ds"

  /** Which branch of the handler a message takes. */
  datatype Route =
    | Ignored
    | UpdateUntyped    // 528, whatever the package manager
    | UpdateTypedApt   // 529 with package manager "apt"
    | UpdateTypedSnap  // 529 with package manager "snap"
    | ListApt          // 516 with package manager "apt"
    | ListSnap         // 516 with package manager "snap"

  function RouteOf(msg: Inbound, packageManager: string): (r: Route)
    ensures r != Ignored ==> Contains(msg.topic, DownstreamTopic)
    ensures r == UpdateUntyped <==> Contains(msg.topic, DownstreamTopic) && msg.messageId == "528"
    ensures r == UpdateTypedApt <==>
      Contains(msg.topic, DownstreamTopic) && msg.messageId == "529" && packageManager == "apt"
    ensures r == UpdateTypedSnap <==>
      Contains(msg.topic, DownstreamTopic) && msg.messageId == "529" && packageManager == "snap"
    ensures r == ListApt <==>
      Contains(msg.topic, DownstreamTopic) && msg.messageId == "516" && packageManager == "apt"
    ensures r == ListSnap <==>
      Contains(msg.topic, DownstreamTopic) && msg.messageId == "516" && packageManager == "snap"
  {
    if !Contains(msg.topic, DownstreamTopic) then Ignored
    else if msg.messageId == "528" then UpdateUntyped
    else if msg.messageId == "529" && packageManager == "apt" then UpdateTypedApt
    else if msg.messageId == "529" && packageManager == "snap" then UpdateTypedSnap
    else if msg.messageId == "516" && packageManager == "apt" then ListApt
    else if msg.messageId == "516" && packageManager == "snap" then ListSnap
    else Ignored
  }

  /** The operation whose status a branch reports. */
  function OperationOf(route: Route): (op: string) {
    if route in {UpdateUntyped, UpdateTypedApt, UpdateTypedSnap} then UpdateOp else ListOp
  }

  /** A package manager other than "apt" or "snap" leaves only the untyped update. */
  lemma {:induction false} UnknownPackageManager(msg: Inbound, packageManager: string)
    requires packageManager != "apt" && packageManager != "snap"
    ensures RouteOf(msg, packageManager) in {Ignored, UpdateUntyped}
  {
  }

  /** The configured package manager, "apt" when the setting is missing or empty. */
  function PackageManagerOf(configured: Option<string>): (pm: string)
    ensures pm != ""
    ensures configured.Some? && configured.value != "" ==> pm == configured.value
    ensures configured.None? || configured.value == "" ==> pm == "apt"
  {
    if configured.Some? && configured.value != "" then configured.value else "apt"
  }

  /**
   * The values of the first operation of a message, without its leading
   * device id; None where the message has no values at all, on which the
   * handler raises IndexError.
   */
  function OperationBody(values: seq<string>): (body: Option<seq<string>>)
    ensures body.None? <==> values == []
  {
    if values == [] then None
    else
      GroupsEmpty(values);
      GroupsNonEmpty(values);
      Some(Groups(values)[0][1..])
  }

  lemma {:induction false} CutsPlain(ts: seq<string>)
    requires forall j :: 0 <= j < |ts| ==> !Breaks(ts[j])
    ensures Cuts(ts) == ts
  {
    if ts != [] {
      CutsPlain(ts[1..]);
    }
  }

  /** A message without line breaks is a single operation: the body is everything after the device id. */
  lemma {:induction false} SingleOperation(values: seq<string>)
    requires values != []
    requires forall j :: 0 <= j < |values| ==> !Breaks(values[j])
    ensures OperationBody(values) == Some(values[1..])
  {
    SingleGroup(values);
    CutsPlain(values);
  }

  /**
   * Of several operations only the first is carried out: the body ends at
   * the first value holding a line break, cut before that break.
   */
  lemma {:induction false} FirstOperationOnly(values: seq<string>, k: nat)
    requires k < |values| && Breaks(values[k])
    requires forall j :: 0 <= j < k ==> !Breaks(values[j])
    ensures OperationBody(values) == Some(Cuts(values[..k + 1])[1..])
  {
    FirstGroup(values, k);
  }

  /** What the apt backend reports for one entry it processed. */
  datatype AptApplied = AptApplied(name: string, version: string, softwareType: string, action: string)

  /** The result of the apt backend's `install_software`: errors and processed entries. */
  datatype AptOutcome = AptOutcome(errors: seq<string>, installed: seq<AptApplied>)

  /**
   * The collaborators of the handler that are outside this model, as values:
   * the apt backend, the platform's binary download, the apt-get run on a
   * downloaded file (its standard error) and whether the platform token
   * arrives in time.
   */
  datatype Environment = Environment(
    installSoftware: (seq<seq<string>>, bool) -> AptOutcome,
    installSoftwareList: seq<seq<string>> -> seq<string>,
    installedSoftware: Message,
    download: string -> string,
    aptGetErrors: string -> string,
    tokenArrives: bool)

  /** The handler's effects outside the published messages. */
  datatype Effect =
    | AptInstall(records: seq<seq<string>>, withType: bool)  // apt backend's install_software
    | AptListInstall(records: seq<seq<string>>)              // apt backend's installSoftware
    | Downloaded(url: string)                                // binary fetched from the platform
    | AptGetInstall(file: string)                            // apt-get install of a downloaded file
    | InventoryUpdated                                       // managed object updated with the apt software list

  /** The managed object is updated only if the platform token arrives in time. */
  function TokenRefresh(env: Environment): (effects: seq<Effect>) {
    if env.tokenArrives then [InventoryUpdated] else []
  }

  /** What an apt-only branch does: messages published, effects, and the exception it raises, if any. */
  datatype Outcome = Outcome(published: seq<Message>, effects: seq<Effect>, fault: Option<Fault>)

  /** The notice published for one entry the apt backend processed: 141 for an installed, 142 for a removed one. */
  function Notice(a: AptApplied): (ms: seq<Message>) {
    if a.action == "install" || a.action == "update" then [Message("141", [a.name, a.version, a.softwareType, "test"])]
    else if a.action == "delete" then [Message("142", [a.name, a.version])]
    else []
  }

  function Notices(xs: seq<AptApplied>): (ms: seq<Message>) {
    if xs == [] then [] else Notice(xs[0]) + Notices(xs[1..])
  }

  predicate Noticed(a: AptApplied) {
    a.action == "install" || a.action == "update" || a.action == "delete"
  }

  /**
   * At most one notice per processed entry, each a 141 or a 142, and none
   * at all exactly when no entry was installed, updated or deleted.
   */
  lemma {:induction false} NoticesSpec(xs: seq<AptApplied>)
    ensures |Notices(xs)| <= |xs|
    ensures forall i :: 0 <= i < |Notices(xs)| ==> Notices(xs)[i].templateId in {"141", "142"}
    ensures Notices(xs) == [] <==> forall i :: 0 <= i < |xs| ==> !Noticed(xs[i])
  {
    if xs != [] {
      NoticesSpec(xs[1..]);
      var n := Notice(xs[0]);
      forall i | 0 <= i < |Notices(xs)| ensures Notices(xs)[i].templateId in {"141", "142"} {
        if i >= |n| {
          assert Notices(xs)[i] == Notices(xs[1..])[i - |n|];
        }
      }
      if forall i :: 0 <= i < |xs| ==> !Noticed(xs[i]) {
        forall i | 0 <= i < |xs[1..]| ensures !Noticed(xs[1..][i]) {
          assert xs[1..][i] == xs[i + 1];
        }
      } else if !Noticed(xs[0]) {
        var i :| 0 <= i < |xs| && Noticed(xs[i]);
        assert xs[1..][i - 1] == xs[i];
      }
    }
  }

  /**
   * 528, software update without type, on the operation's body: records of
   * four fields (name, version, url, action). Without a "binaries" url the
   * apt backend applies the whole batch; otherwise the last record's url is
   * downloaded and, for install or update, installed with apt-get.
   */
  function UntypedUpdate(body: seq<string>, env: Environment): (o: Outcome) {
    var records := Chunk(body, 4);
    var start := [Executing(UpdateOp)];
    if ShortRecord(records, 4) then Outcome(start, [], Some(IndexOutOfRange))
    else if !HasBinary(records, 2) then
      var result := env.installSoftware(records, false);
      Outcome(start + [Verdict(UpdateOp, result.errors)], [AptInstall(records, false)] + TokenRefresh(env), None)
    else
      var software := records[|records| - 1];
      var file := env.download(software[2]);
      if software[3] == "install" || software[3] == "update" then
        var errors := env.aptGetErrors(file);
        var finished := if errors != "" then Failed(UpdateOp, errors) else Succeeded(UpdateOp);
        Outcome(start + [finished], [Downloaded(software[2]), AptGetInstall(file)] + TokenRefresh(env), None)
      else Outcome(start, [Downloaded(software[2])], None)
  }

  /**
   * 529 with the apt backend, on the operation's body: records of five
   * fields (name, version, type, url, action). Without a "binaries" url the
   * apt backend applies the batch and each processed entry is announced;
   * otherwise the last record's file is downloaded and, for install or
   * update, installed with apt-get.
   */
  function TypedUpdateApt(body: seq<string>, env: Environment): (o: Outcome) {
    var records := Chunk(body, 5);
    var start := [Executing(UpdateOp)];
    if ShortRecord(records, 5) then Outcome(start, [], Some(IndexOutOfRange))
    else if !HasBinary(records, 3) then
      var result := env.installSoftware(records, true);
      Outcome(start + Notices(result.installed) + [Verdict(UpdateOp, result.errors)], [AptInstall(records, true)], None)
    else
      var software := records[|records| - 1];
      var file := env.download(software[3]);
      if software[4] == "install" || software[4] == "update" then
        var errors := env.aptGetErrors(file);
        var report :=
          if errors != "" then [Failed(UpdateOp, errors)]
          else [Message("141", [software[0], software[1], software[2], ""]), Succeeded(UpdateOp)];
        Outcome(start + report, [Downloaded(software[3]), AptGetInstall(file)], None)
      else Outcome(start, [Downloaded(software[3])], None)
  }

  /**
   * 516 with the apt backend: the apt backend reconciles the list, the
   * managed object is updated, and the verdict is published followed by the
   * inventory message the apt backend's `getInstalledSoftware` returns.
   */
  function ListAptRun(body: seq<string>, env: Environment): (o: Outcome) {
    var records := Chunk(body, 3);
    var errors := env.installSoftwareList(records);
    Outcome([Executing(ListOp), Verdict(ListOp, errors), env.installedSoftware], [AptListInstall(records), InventoryUpdated], None)
  }

  /** Everything one message does: published messages, effects, the snapd state after it, and the exception raised. */
  datatype Run = Run(published: seq<Message>, effects: seq<Effect>, daemon: Daemon, busy: bool, fault: Option<Fault>)

  function Lift(o: Outcome, d: Daemon, busy: bool): (r: Run) {
    Run(o.published, o.effects, d, busy, o.fault)
  }

  /**
   * 529 with the snap backend: after the scan it lists the snaps and applies
   * the records through snapd, then always raises in the debug line that
   * calls `type`, which this function has made a local name: a string when
   * some record was scanned, unassigned when none was.
   */
  function TypedUpdateSnap(body: seq<string>, d: Daemon, busy: bool): (r: Run) {
    var records := Chunk(body, 5);
    var start := [Executing(UpdateOp)];
    if ShortRecord(records, 5) then Run(start, [], d, busy, Some(IndexOutOfRange))
    else
      var d1 := ListSnaps(d).1;
      var (o, d2) := ApplyBatch(d1, records, AgentModule);
      var fault := if o.Aborted? then o.fault else if records == [] then UnboundType else StrNotCallable;
      Run(start, [], d2, busy, Some(fault))
  }

  /**
   * 516 with the snap backend. When snapd is free the module marks it busy,
   * lists the snaps and calls `installSnap` with one argument too many, so
   * the busy mark is never cleared. When snapd is busy it reports so and
   * then reads the never-assigned `errors`.
   */
  function ListSnapRun(body: seq<string>, d: Daemon, busy: bool): (r: Run) {
    if !busy then Run([Executing(ListOp)], [], ListSnaps(d).1, true, Some(InstallSnapArity))
    else Run([Executing(ListOp), Failed(ListOp, "Snapd is busy")], [], d, busy, Some(UnboundErrors))
  }

  /** `handleOperation` on one message, given the package manager, the collaborators and snapd's state. */
  function Handle(msg: Inbound, packageManager: string, env: Environment, d: Daemon, busy: bool): (r: Run) {
    var route := RouteOf(msg, packageManager);
    if route == Ignored then Run([], [], d, busy, None)
    else match OperationBody(msg.values)
      case None => Run([], [], d, busy, Some(IndexOutOfRange))
      case Some(body) =>
        match route
        case UpdateUntyped => Lift(UntypedUpdate(body, env), d, busy)
        case UpdateTypedApt => Lift(TypedUpdateApt(body, env), d, busy)
        case UpdateTypedSnap => TypedUpdateSnap(body, d, busy)
        case ListApt => Lift(ListAptRun(body, env), d, busy)
        case ListSnap => ListSnapRun(body, d, busy)
  }

  /** The messages a run publishes, including the handler's failure pair when it raised. */
  function Report(r: Run): (published: seq<Message>) {
    r.published + (if r.fault.Some? then FailurePair(r.fault.value) else [])
  }

  /** A message that ends operation `op`: failed (502) or succeeded (503). */
  predicate Final(m: Message, op: string) {
    (m.templateId == "502" || m.templateId == "503") && |m.fields| >= 1 && m.fields[0] == op
  }

  predicate Concluded(msgs: seq<Message>, op: string) {
    exists i :: 0 <= i < |msgs| && Final(msgs[i], op)
  }

  /**
   * An update whose last record carries a package file (some url names
   * "binaries") but whose action is neither install nor update: the file is
   * downloaded and nothing else happens.
   */
  predicate LeftExecuting(route: Route, body: seq<string>) {
    (route == UpdateUntyped &&
      var records := Chunk(body, 4);
      !ShortRecord(records, 4) && HasBinary(records, 2) &&
      records[|records| - 1][3] != "install" && records[|records| - 1][3] != "update")
    ||
    (route == UpdateTypedApt &&
      var records := Chunk(body, 5);
      !ShortRecord(records, 5) && HasBinary(records, 3) &&
      records[|records| - 1][4] != "install" && records[|records| - 1][4] != "update")
  }

  /** An unrouted message does nothing at all. */
  lemma {:induction false} HandleIgnored(msg: Inbound, packageManager: string, env: Environment, d: Daemon, busy: bool)
    requires RouteOf(msg, packageManager) == Ignored
    ensures var r := Handle(msg, packageManager, env, d, busy);
      Report(r) == [] && r.effects == [] && r.daemon == d && r.busy == busy
  {
  }

  /**
   * A routed message without values raises before anything is published:
   * the only messages are the failure pair.
   */
  lemma {:induction false} HandleEmptyPayload(msg: Inbound, packageManager: string, env: Environment, d: Daemon, busy: bool)
    requires RouteOf(msg, packageManager) != Ignored && msg.values == []
    ensures var r := Handle(msg, packageManager, env, d, busy);
      Report(r) == FailurePair(IndexOutOfRange) && r.effects == [] && r.daemon == d && r.busy == busy
  {
  }

  /** A routed message with values first announces its operation as executing. */
  lemma {:induction false} HandleAnnounces(msg: Inbound, packageManager: string, env: Environment, d: Daemon, busy: bool)
    requires RouteOf(msg, packageManager) != Ignored && msg.values != []
    ensures var r := Handle(msg, packageManager, env, d, busy);
      |Report(r)| >= 1 && Report(r)[0] == Executing(OperationOf(RouteOf(msg, packageManager)))
  {
    var route := RouteOf(msg, packageManager);
    var r := Handle(msg, packageManager, env, d, busy);
    var b := OperationBody(msg.values).value;
    if route == UpdateUntyped {
      assert r == Lift(UntypedUpdate(b, env), d, busy);
    } else if route == UpdateTypedApt {
      assert r == Lift(TypedUpdateApt(b, env), d, busy);
    } else if route == ListApt {
      assert r == Lift(ListAptRun(b, env), d, busy);
    } else if route == UpdateTypedSnap {
      assert r == TypedUpdateSnap(b, d, busy);
    } else {
      assert r == ListSnapRun(b, d, busy);
    }
    assert |r.published| >= 1 && r.published[0] == Executing(OperationOf(route));
  }

  /** The apt branches and the untyped update never contact snapd nor touch the busy mark. */
  lemma {:induction false} AptRoutesLeaveSnapd(msg: Inbound, packageManager: string, env: Environment, d: Daemon, busy: bool)
    requires RouteOf(msg, packageManager) in {UpdateUntyped, UpdateTypedApt, ListApt}
    ensures Handle(msg, packageManager, env, d, busy).daemon == d
    ensures Handle(msg, packageManager, env, d, busy).busy == busy
  {
  }

  /** The failure pair ends both operations. */
  lemma {:induction false} FailureConcludes(published: seq<Message>, f: Fault, op: string)
    requires op == UpdateOp || op == ListOp
    ensures Concluded(published + FailurePair(f), op)
  {
    var k := if op == ListOp then 0 else 1;
    assert (published + FailurePair(f))[|published| + k] == FailurePair(f)[k];
  }

  /** Without an exception, the untyped update ends its operation unless it is left executing. */
  lemma {:induction false} UntypedConcluded(body: seq<string>, env: Environment)
    ensures var o := UntypedUpdate(body, env);
      (LeftExecuting(UpdateUntyped, body) ==> o.fault.None? && o.published == [Executing(UpdateOp)]) &&
      (o.fault.None? && !LeftExecuting(UpdateUntyped, body) ==> Concluded(o.published, UpdateOp))
  {
    var o := UntypedUpdate(body, env);
    if o.fault.None? && !LeftExecuting(UpdateUntyped, body) {
      assert Final(o.published[1], UpdateOp);
    }
  }

  /** Without an exception, the typed apt update ends its operation unless it is left executing. */
  lemma {:induction false} TypedAptConcluded(body: seq<string>, env: Environment)
    ensures var o := TypedUpdateApt(body, env);
      (LeftExecuting(UpdateTypedApt, body) ==> o.fault.None? && o.published == [Executing(UpdateOp)]) &&
      (o.fault.None? && !LeftExecuting(UpdateTypedApt, body) ==> Concluded(o.published, UpdateOp))
  {
    var o := TypedUpdateApt(body, env);
    var records := Chunk(body, 5);
    if o.fault.None? && !ShortRecord(records, 5) && !HasBinary(records, 3) {
      var result := env.installSoftware(records, true);
      assert o.published[|o.published| - 1] == Verdict(UpdateOp, result.errors);
    }
    if o.fault.None? && !LeftExecuting(UpdateTypedApt, body) {
      assert Final(o.published[|o.published| - 1], UpdateOp);
    }
  }

  /** A run ends its operation exactly when it is not left executing, given how its published messages end. */
  lemma {:induction false} RunConcluded(r: Run, op: string, left: bool)
    requires op == UpdateOp || op == ListOp
    requires left ==> r.fault.None? && r.published == [Executing(op)]
    requires r.fault.None? && !left ==> Concluded(r.published, op)
    ensures Concluded(Report(r), op) <==> !left
  {
    if r.fault.Some? {
      FailureConcludes(r.published, r.fault.value, op);
    } else if left {
      assert Report(r) == [Executing(op)];
      assert !Final(Executing(op), op);
    } else {
      var i :| 0 <= i < |r.published| && Final(r.published[i], op);
      assert Report(r)[i] == r.published[i];
    }
  }

  /**
   * Every routed message ends its operation with a failure or a success,
   * except exactly an update that downloads a package file for an action
   * other than install or update: that one is left executing.
   */
  lemma {:induction false} OperationConcluded(msg: Inbound, packageManager: string, env: Environment, d: Daemon, busy: bool)
    requires RouteOf(msg, packageManager) != Ignored
    ensures var route := RouteOf(msg, packageManager);
      var r := Handle(msg, packageManager, env, d, busy);
      Concluded(Report(r), OperationOf(route)) <==>
        !(OperationBody(msg.values).Some? && LeftExecuting(route, OperationBody(msg.values).value))
  {
    var route := RouteOf(msg, packageManager);
    var r := Handle(msg, packageManager, env, d, busy);
    var op := OperationOf(route);
    var body := OperationBody(msg.values);
    if body.None? {
      RunConcluded(r, op, false);
    } else {
      var b := body.value;
      var left := LeftExecuting(route, b);
      if route == UpdateUntyped {
        assert r == Lift(UntypedUpdate(b, env), d, busy);
        UntypedConcluded(b, env);
      } else if route == UpdateTypedApt {
        assert r == Lift(TypedUpdateApt(b, env), d, busy);
        TypedAptConcluded(b, env);
      } else if route == ListApt {
        assert r == Lift(ListAptRun(b, env), d, busy);
        assert !left && Final(r.published[1], op);
      } else if route == UpdateTypedSnap {
        assert r == TypedUpdateSnap(b, d, busy);
        assert !left && r.fault.Some?;
      } else {
        assert r == ListSnapRun(b, d, busy);
        assert !left && r.fault.Some?;
      }
      RunConcluded(r, op, left);
    }
  }

  /** The typed snap update never succeeds: it always ends in the handler's failure pair. */
  lemma {:induction false} TypedSnapNeverSucceeds(msg: Inbound, packageManager: string, env: Environment, d: Daemon, busy: bool)
    requires RouteOf(msg, packageManager) == UpdateTypedSnap
    ensures var r := Handle(msg, packageManager, env, d, busy);
      r.fault.Some? && Succeeded(UpdateOp) !in Report(r)
  {
    var r := Handle(msg, packageManager, env, d, busy);
    assert r.fault.Some?;
    assert r.published == [] || r.published == [Executing(UpdateOp)];
  }

  /**
   * Before the typed snap update raises in its debug line, it has sent snapd
   * the list request and then the request of every record, in order.
   */
  lemma {:induction false} TypedSnapAttemptsEveryRecord(body: seq<string>, d: Daemon, busy: bool)
    requires !ShortRecord(Chunk(body, 5), 5)
    ensures var r := TypedUpdateSnap(body, d, busy);
      |d.calls| < |r.daemon.calls| && r.daemon.calls[..|d.calls| + 1] == d.calls + [ListCall] &&
      (r.fault in {Some(StrNotCallable), Some(UnboundType)} ==>
        Posts(r.daemon.calls[|d.calls| + 1..]) == Requests(AgentModule, Chunk(body, 5)))
  {
    var records := Chunk(body, 5);
    var d1 := ListSnaps(d).1;
    BatchAttemptsEveryItem(d1, records, AgentModule);
    var (o, d2) := ApplyBatch(d1, records, AgentModule);
    var r := TypedUpdateSnap(body, d, busy);
    assert r.daemon == d2;
    assert |d1.calls| == |d.calls| + 1;
    assert d2.calls[..|d1.calls|] == d1.calls;
    assert d2.calls[..|d.calls| + 1] == d.calls + [ListCall];
    if o.Aborted? {
      assert o.fault in {IndexOutOfRange, NoneNotSubscriptable} by {
        AbortedFaults(d1, records, AgentModule);
      }
    }
  }

  /**
   * The busy mark set by a software list on snap is never cleared, so the
   * next software list on snap only reports that snapd is busy, and leaves
   * snapd alone.
   */
  lemma {:induction false} SecondListReportsBusy(m1: Inbound, m2: Inbound, packageManager: string, env: Environment, d: Daemon, busy: bool)
    requires RouteOf(m1, packageManager) == ListSnap && m1.values != []
    requires RouteOf(m2, packageManager) == ListSnap && m2.values != []
    ensures var r1 := Handle(m1, packageManager, env, d, busy);
      var r2 := Handle(m2, packageManager, env, r1.daemon, r1.busy);
      r1.busy && r2.busy && r2.daemon == r1.daemon &&
      Report(r2) == [Executing(ListOp), Failed(ListOp, "Snapd is busy")] + FailurePair(UnboundErrors)
  {
  }

  /**
   * The untyped update without a package file: the apt backend receives
   * every record, and the verdict carries its errors joined by " - ".
   */
  lemma {:induction false} UntypedBatch(body: seq<string>, env: Environment)
    requires !ShortRecord(Chunk(body, 4), 4) && !HasBinary(Chunk(body, 4), 2)
    ensures var o := UntypedUpdate(body, env);
      var result := env.installSoftware(Chunk(body, 4), false);
      o.fault.None? && o.effects[0] == AptInstall(Chunk(body, 4), false) && Flatten(o.effects[0].records) == body &&
      o.published[|o.published| - 1].fields[0] == UpdateOp &&
      (o.published[|o.published| - 1].templateId == "503" <==> result.errors == [])
  {
    ChunkFlatten(body, 4);
  }

  /**
   * The typed apt update without a package file: every notice comes after
   * the executing message and before the verdict, and the verdict is the
   * only message that ends the operation.
   */
  lemma {:induction false} TypedAptBatch(body: seq<string>, env: Environment)
    requires !ShortRecord(Chunk(body, 5), 5) && !HasBinary(Chunk(body, 5), 3)
    ensures var o := TypedUpdateApt(body, env);
      var result := env.installSoftware(Chunk(body, 5), true);
      var n := |o.published|;
      o.fault.None? && n == |Notices(result.installed)| + 2 &&
      o.published[0] == Executing(UpdateOp) &&
      o.published[1..n - 1] == Notices(result.installed) &&
      o.published[n - 1] == Verdict(UpdateOp, result.errors) &&
      forall i :: 0 <= i < n - 1 ==> !Final(o.published[i], UpdateOp)
  {
    var o := TypedUpdateApt(body, env);
    var result := env.installSoftware(Chunk(body, 5), true);
    var notices := Notices(result.installed);
    NoticesSpec(result.installed);
    assert o.published == [Executing(UpdateOp)] + notices + [Verdict(UpdateOp, result.errors)];
    forall i | 0 <= i < |o.published| - 1 ensures !Final(o.published[i], UpdateOp) {
      if i > 0 {
        assert o.published[i] == notices[i - 1];
      }
    }
  }

  /**
   * The busy gate of the snap software list. When snapd is busy, only the
   * busy failure is reported and snapd is not called; otherwise the mark is
   * set, the snaps are listed, and the exception that follows leaves the
   * mark set.
   */
  lemma {:induction false} ListSnapGate(msg: Inbound, packageManager: string, env: Environment, d: Daemon, busy: bool)
    requires RouteOf(msg, packageManager) == ListSnap && msg.values != []
    ensures var r := Handle(msg, packageManager, env, d, busy);
      r.busy && r.effects == [] &&
      (busy ==>
        r.daemon == d &&
        Report(r) == [Executing(ListOp), Failed(ListOp, "Snapd is busy")] + FailurePair(UnboundErrors)) &&
      (!busy ==>
        r.daemon.calls == d.calls + [ListCall] &&
        Report(r) == [Executing(ListOp)] + FailurePair(InstallSnapArity))
  {
  }

  /**
   * With a package file, only the last record's url is fetched, whichever
   * record named "binaries".
   */
  lemma {:induction false} BinaryFromLastRecord(body: seq<string>, env: Environment)
    requires !ShortRecord(Chunk(body, 4), 4) && HasBinary(Chunk(body, 4), 2)
    ensures var records := Chunk(body, 4);
      records != [] && UntypedUpdate(body, env).effects[0] == Downloaded(records[|records| - 1][2])
  {
  }

  /**
   * The software-management module. `published` is what it has sent on
   * `s/us`; `effects` what it has asked of the apt backend and the platform.
   * The snapd client and its busy mark are shared with the rest of the agent.
   */
  class SoftwareManager {
    const snapd: SnapdClient
    const packageManager: string
    var published: seq<Message>
    var effects: seq<Effect>

    constructor (client: SnapdClient, configured: Option<string>)
      ensures snapd == client && packageManager == PackageManagerOf(configured)
      ensures published == [] && effects == []
    {
      snapd := client;
      if configured.Some? && configured.value != "" {
        packageManager := configured.value;
      } else {
        packageManager := "apt";
      }
      published := [];
      effects := [];
    }

    /** The snaps keyed by name with their version and channel; a later duplicate replaces an earlier one. */
    method GetFormattedSnaps() returns (allInstalled: map<string, SnapEntry>)
      modifies snapd`daemon
      ensures snapd.daemon == ListSnaps(old(snapd.daemon)).1
      ensures allInstalled == IndexByName(old(snapd.daemon).snaps, ModuleEntry)
    {
      var installedSnaps := snapd.GetInstalledSnaps();
      allInstalled := map[];
      for i := 0 to |installedSnaps|
        invariant allInstalled == IndexByName(installedSnaps[..i], ModuleEntry)
      {
        var snap := installedSnaps[i];
        allInstalled := allInstalled[snap.name := SnapEntry(snap.version, snap.channel)];
        assert installedSnaps[..i + 1][..i] == installedSnaps[..i];
      }
      assert installedSnaps[..|installedSnaps|] == installedSnaps;
    }

    /** The 116 message: three fields per installed snap, in snapd's order. */
    method GetInstalledSnaps() returns (m: Message)
      modifies snapd`daemon
      ensures snapd.daemon == ListSnaps(old(snapd.daemon)).1
      ensures m == Message("116", Rows(old(snapd.daemon).snaps, Row116))
    {
      var installedSnaps := snapd.GetInstalledSnaps();
      var allInstalled: seq<string> := [];
      for i := 0 to |installedSnaps|
        invariant snapd.daemon == ListSnaps(old(snapd.daemon)).1
        invariant allInstalled == Rows(installedSnaps[..i], Row116)
      {
        var snap := installedSnaps[i];
        allInstalled := allInstalled + [snap.name, snap.version + "##" + snap.channel, ""];
        RowsSnoc(installedSnaps[..i], snap, Row116);
        assert installedSnaps[..i + 1] == installedSnaps[..i] + [snap];
      }
      assert installedSnaps[..|installedSnaps|] == installedSnaps;
      m := Message("116", allInstalled);
    }

    /** One change-status request: finished for Done and Error, with the change's error for Error. */
    method GetChangeStatus(changeId: string) returns (status: Option<ChangeStatus>)
      modifies snapd`daemon
      ensures (status, snapd.daemon) == PollChange(old(snapd.daemon), changeId)
    {
      var reply := snapd.GetChangeStatus(changeId);
      if reply.None? {
        return None;
      }
      var error: Option<string> := None;
      var finished := reply.value.status == "Done";
      if !finished && reply.value.status == "Error" {
        finished := true;
        error := Some(reply.value.err);
      }
      status := Some(ChangeStatus(finished, error));
    }

    /** The poll loop on one change: ask again until the change is finished. */
    method WaitForChange(changeId: string) returns (status: Option<ChangeStatus>)
      modifies snapd`daemon
      ensures (status, snapd.daemon) == Await(old(snapd.daemon), changeId)
    {
      status := GetChangeStatus(changeId);
      while status.Some? && !status.value.finished
        invariant status.Some? && !status.value.finished ==> Await(old(snapd.daemon), changeId) == Await(snapd.daemon, changeId)
        invariant status.None? || status.value.finished ==> (status, snapd.daemon) == Await(old(snapd.daemon), changeId)
        decreases |snapd.daemon.changes| + (if status.Some? then 1 else 0)
      {
        status := GetChangeStatus(changeId);
      }
    }

    /** One record of `installSnap`: install or refresh the snap it names; other actions are skipped. */
    method InstallSnapItem(software: seq<string>) returns (o: ItemOutcome)
      modifies snapd`daemon
      ensures (o, snapd.daemon) == ApplyItem(old(snapd.daemon), software, AgentModule)
    {
      if |software| < 5 {
        return Crashed(IndexOutOfRange);
      }
      var name, channel, action := software[0], Channel(software[1]), software[4];
      var response: Option<Reply>;
      if action == "install" {
        response := snapd.InstallSnap(name, channel);
      } else if action == "update" {
        if name == "c8ycc" {
          response := snapd.UpdateSnap(name, channel, true);
        } else {
          response := snapd.UpdateSnap(name, channel, false);
        }
      } else {
        return Applied(None);
      }
      if response.None? {
        return Crashed(NoneNotSubscriptable);
      }
      if response.value.statusCode >= 400 {
        o := Applied(Some("Snap" + name + " error: " + response.value.message));
      } else if response.value.statusCode == 202 {
        var changeStatus := WaitForChange(response.value.change);
        if changeStatus.None? {
          return Crashed(NoneNotSubscriptable);
        }
        if changeStatus.value.error.Some? && changeStatus.value.error.value != "" {
          o := Applied(changeStatus.value.error);
        } else {
          o := Applied(None);
        }
      } else {
        o := Applied(None);
      }
    }

    /**
     * `installSnap`: apply every record in order, collecting the errors; an
     * exception abandons the rest of the batch.
     */
    method InstallSnap(toBeInstalled: seq<seq<string>>) returns (outcome: BatchOutcome)
      modifies snapd`daemon
      ensures (outcome, snapd.daemon) == ApplyBatch(old(snapd.daemon), toBeInstalled, AgentModule)
    {
      var errors: seq<string> := [];
      var i := 0;
      assert toBeInstalled[0..] == toBeInstalled;
      ghost var r := ApplyBatch(snapd.daemon, toBeInstalled, AgentModule);
      assert r.0.Finished? ==> [] + r.0.errors == r.0.errors;
      while i < |toBeInstalled|
        invariant 0 <= i <= |toBeInstalled|
        invariant ApplyBatch(old(snapd.daemon), toBeInstalled, AgentModule) ==
          Resume(errors, ApplyBatch(snapd.daemon, toBeInstalled[i..], AgentModule))
      {
        BatchStep(snapd.daemon, errors, toBeInstalled, i, AgentModule);
        var o := InstallSnapItem(toBeInstalled[i]);
        if o.Crashed? {
          return Aborted(o.fault);
        }
        errors := errors + OptionToSeq(o.error);
        i := i + 1;
      }
      assert toBeInstalled[i..] == [];
      assert errors + [] == errors;
      outcome := Finished(errors);
    }

    /** `group(values, '\n')[0]` followed by popping the device id. */
    method TakeOperation(values: seq<string>) returns (body: Option<seq<string>>)
      ensures body == OperationBody(values)
    {
      var groups := Group(values);
      GroupsEmpty(values);
      if groups == [] {
        return None;
      }
      GroupsNonEmpty(values);
      var messages := groups[0];
      body := Some(messages[1..]);
    }

    method UpdateUntyped(body: seq<string>, env: Environment) returns (fault: Option<Fault>)
      modifies this`published, this`effects
      ensures var o := UntypedUpdate(body, env);
        published == old(published) + o.published && effects == old(effects) + o.effects && fault == o.fault
    {
      published := published + [Executing(UpdateOp)];
      var softwareToInstall := Chunk(body, 4);
      var binaryIncluded := ScanRecords(softwareToInstall, 4, 2);
      if binaryIncluded.None? {
        return Some(IndexOutOfRange);
      }
      if !binaryIncluded.value {
        var result := env.installSoftware(softwareToInstall, false);
        effects := effects + [AptInstall(softwareToInstall, false)];
        published := published + [Verdict(UpdateOp, result.errors)];
        if env.tokenArrives {
          effects := effects + [InventoryUpdated];
        }
      } else {
        var software := softwareToInstall[|softwareToInstall| - 1];
        var url, action := software[2], software[3];
        var file := env.download(url);
        effects := effects + [Downloaded(url)];
        if action == "install" || action == "update" {
          var errors := env.aptGetErrors(file);
          effects := effects + [AptGetInstall(file)];
          if errors != "" {
            published := published + [Failed(UpdateOp, errors)];
          } else {
            published := published + [Succeeded(UpdateOp)];
          }
          if env.tokenArrives {
            effects := effects + [InventoryUpdated];
          }
        }
      }
      fault := None;
    }

    method UpdateTypedApt(body: seq<string>, env: Environment) returns (fault: Option<Fault>)
      modifies this`published, this`effects
      ensures var o := TypedUpdateApt(body, env);
        published == old(published) + o.published && effects == old(effects) + o.effects && fault == o.fault
    {
      published := published + [Executing(UpdateOp)];
      var softwareToInstall := Chunk(body, 5);
      var binaryIncluded := ScanRecords(softwareToInstall, 5, 3);
      if binaryIncluded.None? {
        return Some(IndexOutOfRange);
      }
      if !binaryIncluded.value {
        var result := env.installSoftware(softwareToInstall, true);
        effects := effects + [AptInstall(softwareToInstall, true)];
        PublishNotices(result.installed);
        published := published + [Verdict(UpdateOp, result.errors)];
      } else {
        var software := softwareToInstall[|softwareToInstall| - 1];
        var url, action := software[3], software[4];
        var file := env.download(url);
        effects := effects + [Downloaded(url)];
        if action == "install" || action == "update" {
          var errors := env.aptGetErrors(file);
          effects := effects + [AptGetInstall(file)];
          if errors != "" {
            published := published + [Failed(UpdateOp, errors)];
          } else {
            published := published + [Message("141", [software[0], software[1], software[2], ""])];
            published := published + [Succeeded(UpdateOp)];
          }
        }
      }
      fault := None;
    }

    /** Announces each entry the apt backend processed. */
    method PublishNotices(installed: seq<AptApplied>)
      modifies this`published
      ensures published == old(published) + Notices(installed)
    {
      for i := 0 to |installed|
        invariant published == old(published) + Notices(installed[..i])
      {
        var software := installed[i];
        if software.action == "install" || software.action == "update" {
          published := published + [Message("141", [software.name, software.version, software.softwareType, "test"])];
        }
        if software.action == "delete" {
          published := published + [Message("142", [software.name, software.version])];
        }
        NoticesSnoc(installed[..i], software);
        assert installed[..i + 1] == installed[..i] + [software];
      }
      assert installed[..|installed|] == installed;
    }

    method UpdateTypedSnap(body: seq<string>) returns (fault: Option<Fault>)
      modifies this`published, snapd`daemon
      ensures var r := TypedUpdateSnap(body, old(snapd.daemon), old(snapd.isBusy));
        published == old(published) + r.published && r.effects == [] &&
        snapd.daemon == r.daemon && snapd.isBusy == r.busy && fault == r.fault
    {
      published := published + [Executing(UpdateOp)];
      var softwareToInstall := Chunk(body, 5);
      var binaryIncluded := ScanRecords(softwareToInstall, 5, 3);
      if binaryIncluded.None? {
        return Some(IndexOutOfRange);
      }
      var installedSoftware := GetFormattedSnaps();
      var outcome := InstallSnap(softwareToInstall);
      if outcome.Aborted? {
        return Some(outcome.fault);
      }
      // The debug line calls `type`, a local name of the handler.
      if softwareToInstall == [] {
        fault := Some(UnboundType);
      } else {
        fault := Some(StrNotCallable);
      }
    }

    method ListApt(body: seq<string>, env: Environment)
      modifies this`published, this`effects
      ensures var o := ListAptRun(body, env);
        published == old(published) + o.published && effects == old(effects) + o.effects && o.fault.None?
    {
      published := published + [Executing(ListOp)];
      var softwareToInstall := Chunk(body, 3);
      var errors := env.installSoftwareList(softwareToInstall);
      effects := effects + [AptListInstall(softwareToInstall)];
      var finished := Verdict(ListOp, errors);
      effects := effects + [InventoryUpdated];
      published := published + [finished, env.installedSoftware];
    }

    method ListSnap(body: seq<string>) returns (fault: Option<Fault>)
      modifies this`published, snapd`daemon, snapd`isBusy
      ensures var r := ListSnapRun(body, old(snapd.daemon), old(snapd.isBusy));
        published == old(published) + r.published && r.effects == [] &&
        snapd.daemon == r.daemon && snapd.isBusy == r.busy && fault == r.fault
    {
      published := published + [Executing(ListOp)];
      if !snapd.isBusy {
        snapd.isBusy := true;
        var installedSoftware := GetFormattedSnaps();
        // `installSnap` is called with the snaps and the records: one argument too many.
        fault := Some(InstallSnapArity);
      } else {
        published := published + [Failed(ListOp, "Snapd is busy")];
        // The final verdict reads `errors`, never assigned on this path.
        fault := Some(UnboundErrors);
      }
    }

    /**
     * `handleOperation`: route the message, carry out its first operation,
     * and on an exception publish the failure pair with the exception's text.
     */
    method HandleOperation(msg: Inbound, env: Environment)
      modifies this`published, this`effects, snapd`daemon, snapd`isBusy
      ensures var r := Handle(msg, packageManager, env, old(snapd.daemon), old(snapd.isBusy));
        published == old(published) + Report(r) && effects == old(effects) + r.effects &&
        snapd.daemon == r.daemon && snapd.isBusy == r.busy
    {
      var route := RouteOf(msg, packageManager);
      if route.Ignored? {
        return;
      }
      var body := TakeOperation(msg.values);
      ghost var r := Handle(msg, packageManager, env, snapd.daemon, snapd.isBusy);
      var fault: Option<Fault>;
      if body.None? {
        fault := Some(IndexOutOfRange);
      } else if route.UpdateUntyped? {
        assert r == Lift(UntypedUpdate(body.value, env), snapd.daemon, snapd.isBusy);
        fault := UpdateUntyped(body.value, env);
      } else if route.UpdateTypedApt? {
        assert r == Lift(TypedUpdateApt(body.value, env), snapd.daemon, snapd.isBusy);
        fault := UpdateTypedApt(body.value, env);
      } else if route.UpdateTypedSnap? {
        assert r == TypedUpdateSnap(body.value, snapd.daemon, snapd.isBusy);
        fault := UpdateTypedSnap(body.value);
      } else if route.ListApt? {
        assert r == Lift(ListAptRun(body.value, env), snapd.daemon, snapd.isBusy);
        ListApt(body.value, env);
        fault := None;
      } else {
        assert r == ListSnapRun(body.value, snapd.daemon, snapd.isBusy);
        fault := ListSnap(body.value);
      }
      if fault.Some? {
        published := published + FailurePair(fault.value);
      }
    }
  }

  lemma {:induction false} NoticesSnoc(xs: seq<AptApplied>, a: AptApplied)
    ensures Notices(xs + [a]) == Notices(xs) + Notice(a)
  {
    if xs == [] {
      assert Notices([a]) == Notice(a) + Notices([]);
      assert xs + [a] == [a];
    } else {
      assert (xs + [a])[0] == xs[0];
      assert (xs + [a])[1..] == xs[1..] + [a];
      NoticesSnoc(xs[1..], a);
    }
  }
}
