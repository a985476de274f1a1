/**
 * The snapd daemon as seen through the agent's HTTP-over-unix-socket client.
 * The daemon is an oracle: the replies it will give to the next POSTs and
 * to the next change-status queries are scripts consumed in order, and every
 * request is logged. An exhausted script stands for a transport failure, on
 * which the client logs the exception and returns None.
 */
module Snapd {
  import opened Wrappers

  /** One entry of `GET snaps`. */
  datatype SnapInfo = SnapInfo(name: string, version: string, channel: string)

  /** snapd's answer to `POST snaps/{name}`: status code, change id and error message. */
  datatype Reply = Reply(statusCode: int, change: string, message: string)

  /** snapd's answer to `GET changes/{id}`: the change's status and error text. */
  datatype ChangeReply = ChangeReply(status: string, err: string)

  /** A request the agent sends to snapd. */
  datatype Call =
    | InstallCall(name: string, channel: string)
    | RefreshCall(name: string, channel: string, devmode: bool)
    | RemoveCall(name: string)
    | ListCall
    | ChangeCall(changeId: string)

  /** The daemon: installed snaps, scripted replies and the log of requests received. */
  datatype Daemon = Daemon(snaps: seq<SnapInfo>, replies: seq<Reply>, changes: seq<ChangeReply>, calls: seq<Call>)

  /** `GET snaps`. */
  function ListSnaps(d: Daemon): (r: (seq<SnapInfo>, Daemon)) {
    (d.snaps, d.(calls := d.calls + [ListCall]))
  }

  /** A POST on `snaps/{name}`: the next scripted reply, or None once the script is exhausted. */
  function Post(d: Daemon, call: Call): (r: (Option<Reply>, Daemon)) {
    if d.replies == [] then (None, d.(calls := d.calls + [call]))
    else (Some(d.replies[0]), d.(replies := d.replies[1..], calls := d.calls + [call]))
  }

  /** `GET changes/{id}`. */
  function QueryChange(d: Daemon, id: string): (r: (Option<ChangeReply>, Daemon)) {
    if d.changes == [] then (None, d.(calls := d.calls + [ChangeCall(id)]))
    else (Some(d.changes[0]), d.(changes := d.changes[1..], calls := d.calls + [ChangeCall(id)]))
  }

  /** The agent's view of a change: whether it is over, and its error if it failed. */
  datatype ChangeStatus = ChangeStatus(finished: bool, error: Option<string>)

  predicate Terminal(c: ChangeReply) {
    c.status == "Done" || c.status == "Error"
  }

  /**
   * `get_change_status` / `getChangeStatus` on the reply: finished exactly
   * for the terminal states Done and Error, with the change's error exactly
   * for Error.
   */
  function Classify(c: ChangeReply): (s: ChangeStatus)
    ensures s.finished <==> Terminal(c)
    ensures s.error.Some? <==> c.status == "Error"
    ensures s.error.Some? ==> s.error.value == c.err
  {
    var finished := c.status == "Done";
    if !finished && c.status == "Error" then ChangeStatus(true, Some(c.err))
    else ChangeStatus(finished, None)
  }

  /** One change-status request, classified; None where the client returned None. */
  function PollChange(d: Daemon, id: string): (r: (Option<ChangeStatus>, Daemon))
    ensures r.0.Some? ==> |r.1.changes| == |d.changes| - 1
  {
    var (reply, d1) := QueryChange(d, id);
    if reply.None? then (None, d1) else (Some(Classify(reply.value)), d1)
  }

  /** The poll loop: query until the change is finished (or the client fails). */
  function Await(d: Daemon, id: string): (r: (Option<ChangeStatus>, Daemon))
    decreases |d.changes|
  {
    var (s, d1) := PollChange(d, id);
    if s.None? || s.value.finished then (s, d1) else Await(d1, id)
  }

  /** Index of the first terminal reply in a script, if any. */
  function FirstTerminal(cs: seq<ChangeReply>): (r: Option<nat>)
    ensures r.Some? ==> r.value < |cs| && Terminal(cs[r.value])
    ensures r.Some? ==> forall k :: 0 <= k < r.value ==> !Terminal(cs[k])
    ensures r.None? ==> forall k :: 0 <= k < |cs| ==> !Terminal(cs[k])
  {
    if cs == [] then None
    else if Terminal(cs[0]) then Some(0)
    else
      var r := FirstTerminal(cs[1..]);
      if r.None? then None else Some(r.value + 1)
  }

  function Repeat(c: Call, n: nat): (r: seq<Call>)
    ensures |r| == n && forall k :: 0 <= k < n ==> r[k] == c
  {
    seq(n, _ => c)
  }

  /**
   * The poll loop consumes the change-status script up to and including its
   * first terminal reply and returns that reply's classification, sending one
   * request per reply consumed; with no terminal reply in the script, it
   * consumes all of it and fails on the request after the last one.
   */
  lemma {:induction false} AwaitScript(d: Daemon, id: string)
    ensures var (r, d') := Await(d, id);
      d'.snaps == d.snaps && d'.replies == d.replies &&
      match FirstTerminal(d.changes)
      case Some(j) =>
        r == Some(Classify(d.changes[j])) && d'.changes == d.changes[j + 1..] &&
        d'.calls == d.calls + Repeat(ChangeCall(id), j + 1)
      case None =>
        r == None && d'.changes == [] &&
        d'.calls == d.calls + Repeat(ChangeCall(id), |d.changes| + 1)
    decreases |d.changes|
  {
    var call := ChangeCall(id);
    if d.changes != [] && !Terminal(d.changes[0]) {
      var d1 := d.(changes := d.changes[1..], calls := d.calls + [call]);
      AwaitScript(d1, id);
      var rest := FirstTerminal(d1.changes);
      var n := if rest.Some? then rest.value + 1 else |d1.changes| + 1;
      assert d.calls + [call] + Repeat(call, n) == d.calls + Repeat(call, n + 1);
      if rest.Some? {
        assert d1.changes[rest.value] == d.changes[rest.value + 1];
        assert d1.changes[rest.value + 1..] == d.changes[rest.value + 2..];
      }
    } else if d.changes != [] {
      assert [call] == Repeat(call, 1);
    } else {
      assert [call] == Repeat(call, 1);
    }
  }

  /** The poll loop never returns an unfinished change. */
  lemma {:induction false} AwaitFinished(d: Daemon, id: string)
    ensures Await(d, id).0.Some? ==> Await(d, id).0.value.finished
  {
    AwaitScript(d, id);
  }

  /**
   * The snapd client object shared by the agent. `isBusy` is the agent's
   * flag guarding software-list operations; `daemon` is what lies behind the
   * socket.
   */
  class SnapdClient {
    var isBusy: bool
    var daemon: Daemon

    constructor (d: Daemon)
      ensures !isBusy && daemon == d
    {
      isBusy := false;
      daemon := d;
    }

    method GetInstalledSnaps() returns (snaps: seq<SnapInfo>)
      modifies this`daemon
      ensures (snaps, daemon) == ListSnaps(old(daemon))
    {
      snaps := daemon.snaps;
      daemon := daemon.(calls := daemon.calls + [ListCall]);
    }

    /** Sends `call` as a POST and returns the reply, or None on a transport failure. */
    method Send(call: Call) returns (reply: Option<Reply>)
      modifies this`daemon
      ensures (reply, daemon) == Post(old(daemon), call)
    {
      if daemon.replies == [] {
        reply := None;
      } else {
        reply := Some(daemon.replies[0]);
        daemon := daemon.(replies := daemon.replies[1..]);
      }
      daemon := daemon.(calls := daemon.calls + [call]);
    }

    method InstallSnap(name: string, channel: string) returns (reply: Option<Reply>)
      modifies this`daemon
      ensures (reply, daemon) == Post(old(daemon), InstallCall(name, channel))
    {
      reply := Send(InstallCall(name, channel));
    }

    method UpdateSnap(name: string, channel: string, devmode: bool) returns (reply: Option<Reply>)
      modifies this`daemon
      ensures (reply, daemon) == Post(old(daemon), RefreshCall(name, channel, devmode))
    {
      reply := Send(RefreshCall(name, channel, devmode));
    }

    method DeleteSnap(name: string) returns (reply: Option<Reply>)
      modifies this`daemon
      ensures (reply, daemon) == Post(old(daemon), RemoveCall(name))
    {
      reply := Send(RemoveCall(name));
    }

    method GetChangeStatus(changeId: string) returns (reply: Option<ChangeReply>)
      modifies this`daemon
      ensures (reply, daemon) == QueryChange(old(daemon), changeId)
    {
      if daemon.changes == [] {
        reply := None;
      } else {
        reply := Some(daemon.changes[0]);
        daemon := daemon.(changes := daemon.changes[1..]);
      }
      daemon := daemon.(calls := daemon.calls + [ChangeCall(changeId)]);
    }
  }
}
