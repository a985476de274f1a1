/**
 * The installed-software inventory as built from snapd's snap list: the
 * SmartREST rows, the managed-object records and the name-keyed maps.
 */
module Inventory {
  import opened Snapd

  /** One snap as a 140 row: name, "version - channel", type "snap", url " ". */
  function Row140(s: SnapInfo): (row: seq<string>) {
    [s.name, s.version + " - " + s.channel, "snap", " "]
  }

  /** One snap as a 116 row: name, "version##channel", empty url. */
  function Row116(s: SnapInfo): (row: seq<string>) {
    [s.name, s.version + "##" + s.channel, ""]
  }

  /** The concatenated rows of all snaps, in snapd's order. */
  function Rows(snaps: seq<SnapInfo>, row: SnapInfo -> seq<string>): (fields: seq<string>) {
    if snaps == [] then [] else row(snaps[0]) + Rows(snaps[1..], row)
  }

  lemma {:induction false} RowsSnoc(snaps: seq<SnapInfo>, s: SnapInfo, row: SnapInfo -> seq<string>)
    ensures Rows(snaps + [s], row) == Rows(snaps, row) + row(s)
  {
    if snaps == [] {
      assert snaps + [s] == [s];
      assert Rows([s], row) == row(s) + Rows([], row);
    } else {
      assert (snaps + [s])[0] == snaps[0];
      assert (snaps + [s])[1..] == snaps[1..] + [s];
      RowsSnoc(snaps[1..], s, row);
    }
  }

  /**
   * With rows of a fixed width `k`, the rows sit side by side: there are
   * `k` fields per snap, and field `j` of snap `i` is at `k * i + j`.
   */
  lemma {:induction false} RowsAt(snaps: seq<SnapInfo>, row: SnapInfo -> seq<string>, k: nat, i: nat, j: nat)
    requires forall s :: |row(s)| == k
    requires i < |snaps| && j < k
    ensures |Rows(snaps, row)| == k * |snaps|
    ensures k * i + j < |Rows(snaps, row)| && Rows(snaps, row)[k * i + j] == row(snaps[i])[j]
    decreases i
  {
    RowsWidth(snaps, row, k);
    if i > 0 {
      RowsAt(snaps[1..], row, k, i - 1, j);
      assert k * i + j == k + (k * (i - 1) + j);
    }
  }

  lemma {:induction false} RowsWidth(snaps: seq<SnapInfo>, row: SnapInfo -> seq<string>, k: nat)
    requires forall s :: |row(s)| == k
    ensures |Rows(snaps, row)| == k * |snaps|
  {
    if snaps != [] {
      RowsWidth(snaps[1..], row, k);
      assert k * |snaps| == k + k * (|snaps| - 1);
    }
  }

  /** The 140 rows carry four fields per snap: name, "version - channel", "snap", " ". */
  lemma {:induction false} InstalledSoftwareRows(snaps: seq<SnapInfo>, i: nat)
    requires i < |snaps|
    ensures |Rows(snaps, Row140)| == 4 * |snaps|
    ensures Rows(snaps, Row140)[4 * i] == snaps[i].name
    ensures Rows(snaps, Row140)[4 * i + 1] == snaps[i].version + " - " + snaps[i].channel
    ensures Rows(snaps, Row140)[4 * i + 2] == "snap"
    ensures Rows(snaps, Row140)[4 * i + 3] == " "
  {
    RowsAt(snaps, Row140, 4, i, 0);
    RowsAt(snaps, Row140, 4, i, 1);
    RowsAt(snaps, Row140, 4, i, 2);
    RowsAt(snaps, Row140, 4, i, 3);
  }

  /** The 116 rows carry three fields per snap: name, "version##channel", "". */
  lemma {:induction false} InstalledSnapsRows(snaps: seq<SnapInfo>, i: nat)
    requires i < |snaps|
    ensures |Rows(snaps, Row116)| == 3 * |snaps|
    ensures Rows(snaps, Row116)[3 * i] == snaps[i].name
    ensures Rows(snaps, Row116)[3 * i + 1] == snaps[i].version + "##" + snaps[i].channel
    ensures Rows(snaps, Row116)[3 * i + 2] == ""
  {
    RowsAt(snaps, Row116, 3, i, 0);
    RowsAt(snaps, Row116, 3, i, 1);
    RowsAt(snaps, Row116, 3, i, 2);
  }

  /** A software entry of the managed object's software list. */
  datatype SoftwareRecord = SoftwareRecord(name: string, version: string, softwareType: string, url: string)

  /** One snap as a software entry: "version - channel", type "snap", url "test". */
  function Record(s: SnapInfo): (rec: SoftwareRecord) {
    SoftwareRecord(s.name, s.version + " - " + s.channel, "snap", "test")
  }

  /** The value the agent module keeps per snap name. */
  datatype SnapEntry = SnapEntry(version: string, channel: string)

  /** The value the snap package manager keeps per snap name. */
  datatype PackageEntry = PackageEntry(version: string, channel: string, softwareType: string, url: string)

  function ModuleEntry(s: SnapInfo): (entry: SnapEntry) {
    SnapEntry(s.version, s.channel)
  }

  function ManagerEntry(s: SnapInfo): (entry: PackageEntry) {
    PackageEntry(s.version, s.channel, "snap", " ")
  }

  /**
   * The map built by assigning `m[snap.name] := entry(snap)` for each snap in
   * order.
   */
  function IndexByName<V>(snaps: seq<SnapInfo>, entry: SnapInfo -> V): (index: map<string, V>)
    decreases |snaps|
  {
    if snaps == [] then map[]
    else
      var last := snaps[|snaps| - 1];
      IndexByName(snaps[..|snaps| - 1], entry)[last.name := entry(last)]
  }

  /** The snap is the last one in the list with its name. */
  predicate LastWithName(snaps: seq<SnapInfo>, i: nat) {
    i < |snaps| && forall j :: i < j < |snaps| ==> snaps[j].name != snaps[i].name
  }

  /** The keys are exactly the snap names. */
  lemma {:induction false} IndexByNameKeys<V>(snaps: seq<SnapInfo>, entry: SnapInfo -> V)
    ensures forall x :: x in IndexByName(snaps, entry) <==> exists i :: 0 <= i < |snaps| && snaps[i].name == x
    decreases |snaps|
  {
    if snaps != [] {
      var n := |snaps| - 1;
      var init := snaps[..n];
      IndexByNameKeys(init, entry);
      forall x ensures x in IndexByName(snaps, entry) <==> exists i :: 0 <= i < |snaps| && snaps[i].name == x {
        if x in IndexByName(init, entry) {
          var i :| 0 <= i < |init| && init[i].name == x;
          assert snaps[i] == init[i];
        }
        if exists i :: 0 <= i < |snaps| && snaps[i].name == x {
          var i :| 0 <= i < |snaps| && snaps[i].name == x;
          if i < n {
            assert init[i] == snaps[i];
          }
        }
      }
    }
  }

  /**
   * Each name maps to the entry of the last snap with that name: a later
   * duplicate overwrites an earlier one.
   */
  lemma {:induction false} IndexByNameLast<V>(snaps: seq<SnapInfo>, entry: SnapInfo -> V, i: nat)
    requires LastWithName(snaps, i)
    ensures snaps[i].name in IndexByName(snaps, entry)
    ensures IndexByName(snaps, entry)[snaps[i].name] == entry(snaps[i])
    decreases |snaps|
  {
    var n := |snaps| - 1;
    var init := snaps[..n];
    if i < n {
      assert snaps[n].name != snaps[i].name;
      assert LastWithName(init, i) by {
        forall j | i < j < |init| ensures init[j].name != init[i].name {
          assert init[j] == snaps[j];
        }
      }
      IndexByNameLast(init, entry, i);
    }
  }
}
