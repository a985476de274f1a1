/**
 * The snap package manager: the package-manager backend that lists,
 * installs, refreshes and removes snaps through its own snapd client.
 */
module SnapPackageManager {
  import opened Wrappers
  import opened SmartRest
  import opened Snapd
  import opened SnapBatch
  import opened Inventory

  class SnapDPackageManager {
    const snapd: SnapdClient

    constructor (client: SnapdClient)
      ensures snapd == client
    {
      snapd := client;
    }

    /** One change-status request: finished for Done and Error, with the change's error for Error. */
    method GetChangeStatus(changeId: string) returns (status: Option<ChangeStatus>)
      modifies snapd`daemon
      ensures (status, snapd.daemon) == PollChange(old(snapd.daemon), changeId)
    {
      var reply := snapd.GetChangeStatus(changeId);
      if reply.None? {
        return None;
      }
      var error: Option<string> := None;
      var finished := reply.value.status == "Done";
      if !finished && reply.value.status == "Error" {
        finished := true;
        error := Some(reply.value.err);
      }
      status := Some(ChangeStatus(finished, error));
    }

    /** The 140 message: four fields per installed snap, in snapd's order. */
    method GetInstalledSoftware(withUpdate: bool) returns (m: Message)
      modifies snapd`daemon
      ensures snapd.daemon == ListSnaps(old(snapd.daemon)).1
      ensures m == Message("140", Rows(old(snapd.daemon).snaps, Row140))
    {
      var installedSnaps := snapd.GetInstalledSnaps();
      var allInstalled: seq<string> := [];
      for i := 0 to |installedSnaps|
        invariant snapd.daemon == ListSnaps(old(snapd.daemon)).1
        invariant allInstalled == Rows(installedSnaps[..i], Row140)
      {
        var snap := installedSnaps[i];
        allInstalled := allInstalled + [snap.name, snap.version + " - " + snap.channel, "snap", " "];
        RowsSnoc(installedSnaps[..i], snap, Row140);
        assert installedSnaps[..i + 1] == installedSnaps[..i] + [snap];
      }
      assert installedSnaps[..|installedSnaps|] == installedSnaps;
      m := Message("140", allInstalled);
    }

    /** The software list for the managed object: one record per installed snap, in order. */
    method GetInstalledSoftwareJson(withUpdate: bool) returns (softwareList: seq<SoftwareRecord>)
      modifies snapd`daemon
      ensures snapd.daemon == ListSnaps(old(snapd.daemon)).1
      ensures |softwareList| == |old(snapd.daemon).snaps|
      ensures forall i :: 0 <= i < |softwareList| ==> softwareList[i] == Record(old(snapd.daemon).snaps[i])
    {
      softwareList := [];
      var installedSnaps := snapd.GetInstalledSnaps();
      for i := 0 to |installedSnaps|
        invariant |softwareList| == i
        invariant forall k :: 0 <= k < i ==> softwareList[k] == Record(installedSnaps[k])
      {
        var snap := installedSnaps[i];
        softwareList := softwareList + [SoftwareRecord(snap.name, snap.version + " - " + snap.channel, "snap", "test")];
      }
    }

    /** The poll loop on one change: ask again until the change is finished. */
    method WaitForChange(changeId: string) returns (status: Option<ChangeStatus>)
      modifies snapd`daemon
      ensures (status, snapd.daemon) == Await(old(snapd.daemon), changeId)
    {
      status := GetChangeStatus(changeId);
      while status.Some? && !status.value.finished
        invariant status.Some? && !status.value.finished ==> Await(old(snapd.daemon), changeId) == Await(snapd.daemon, changeId)
        invariant status.None? || status.value.finished ==> (status, snapd.daemon) == Await(old(snapd.daemon), changeId)
        decreases |snapd.daemon.changes| + (if status.Some? then 1 else 0)
      {
        status := GetChangeStatus(changeId);
      }
    }

    /** One record of `install_software`: install, refresh or remove the snap it names. */
    method InstallOne(software: seq<string>) returns (o: ItemOutcome)
      modifies snapd`daemon
      ensures (o, snapd.daemon) == ApplyItem(old(snapd.daemon), software, SnapBackend)
    {
      if |software| < 5 {
        return Crashed(IndexOutOfRange);
      }
      var name, channel, action := software[0], Channel(software[1]), software[4];
      var response: Option<Reply>;
      if action == "install" {
        response := snapd.InstallSnap(name, channel);
      } else if action == "update" {
        response := snapd.UpdateSnap(name, channel, false);
      } else if action == "delete" {
        response := snapd.DeleteSnap(name);
      } else {
        return Applied(None);
      }
      if response.None? {
        return Crashed(NoneNotSubscriptable);
      }
      var code := response.value.statusCode;
      if code >= 400 {
        o := Applied(Some("Snap" + name + " error: " + response.value.message));
      } else if code == 202 || code == 200 || code == 201 {
        var changeStatus := WaitForChange(response.value.change);
        if changeStatus.None? {
          return Crashed(NoneNotSubscriptable);
        }
        if changeStatus.value.error.Some? && changeStatus.value.error.value != "" {
          o := Applied(changeStatus.value.error);
        } else {
          o := Applied(None);
        }
      } else {
        o := Applied(None);
      }
    }

    /**
     * `install_software`: apply every record in order, collecting the errors;
     * an exception abandons the rest of the batch.
     */
    method InstallSoftware(softwareToInstall: seq<seq<string>>, withUpdate: bool) returns (outcome: BatchOutcome)
      modifies snapd`daemon
      ensures (outcome, snapd.daemon) == ApplyBatch(old(snapd.daemon), softwareToInstall, SnapBackend)
    {
      var errors: seq<string> := [];
      var i := 0;
      assert softwareToInstall[0..] == softwareToInstall;
      ghost var r := ApplyBatch(snapd.daemon, softwareToInstall, SnapBackend);
      assert r.0.Finished? ==> [] + r.0.errors == r.0.errors;
      while i < |softwareToInstall|
        invariant 0 <= i <= |softwareToInstall|
        invariant ApplyBatch(old(snapd.daemon), softwareToInstall, SnapBackend) ==
          Resume(errors, ApplyBatch(snapd.daemon, softwareToInstall[i..], SnapBackend))
      {
        BatchStep(snapd.daemon, errors, softwareToInstall, i, SnapBackend);
        var o := InstallOne(softwareToInstall[i]);
        if o.Crashed? {
          return Aborted(o.fault);
        }
        errors := errors + OptionToSeq(o.error);
        i := i + 1;
      }
      assert softwareToInstall[i..] == [];
      assert errors + [] == errors;
      outcome := Finished(errors);
    }

    /** The installed snaps keyed by name; a later snap of the same name replaces an earlier one. */
    method GetFormattedSnaps() returns (allInstalled: map<string, PackageEntry>)
      modifies snapd`daemon
      ensures snapd.daemon == ListSnaps(old(snapd.daemon)).1
      ensures allInstalled == IndexByName(old(snapd.daemon).snaps, ManagerEntry)
    {
      var installedSnaps := snapd.GetInstalledSnaps();
      allInstalled := map[];
      for i := 0 to |installedSnaps|
        invariant allInstalled == IndexByName(installedSnaps[..i], ManagerEntry)
      {
        var snap := installedSnaps[i];
        allInstalled := allInstalled[snap.name := PackageEntry(snap.version, snap.channel, "snap", " ")];
        assert installedSnaps[..i + 1][..i] == installedSnaps[..i];
      }
      assert installedSnaps[..|installedSnaps|] == installedSnaps;
    }
  }
}
