/**
 * Parsing of an inbound operation payload: splitting the flat token list
 * into operations at line breaks, and re-chunking one operation's tokens
 * into fixed-width software records.
 */
module Operation {
  import opened Wrappers
  import opened Text

  const LineBreak := "\n"

  /** A token that ends an operation: it contains a line break. */
  predicate Breaks(t: string) {
    '\n' in t
  }

  /** What `group` keeps of a token: the text before its first line break. */
  function Cut(t: string): (kept: string) {
    if Breaks(t) then ContainsChar(t, '\n'); t[..Find(t, LineBreak).value] else t
  }

  function Cuts(ts: seq<string>): (kept: seq<string>) {
    if ts == [] then [] else [Cut(ts[0])] + Cuts(ts[1..])
  }

  /**
   * Reference definition of the grouping, read from the front: a token
   * without a line break belongs to the same group as the token after it;
   * a token with one ends its group.
   */
  function Groups(ts: seq<string>): (groups: seq<seq<string>>)
    decreases |ts|
  {
    if ts == [] then []
    else
      var rest := Groups(ts[1..]);
      if Breaks(ts[0]) || rest == [] then [[Cut(ts[0])]] + rest
      else [[ts[0]] + rest[0]] + rest[1..]
  }

  /** The groups are empty exactly when there are no tokens. */
  lemma {:induction false} GroupsEmpty(ts: seq<string>)
    ensures Groups(ts) == [] <==> ts == []
  {
  }

  /** No group is empty: in particular the first operation always has a device id to pop. */
  lemma {:induction false} GroupsNonEmpty(ts: seq<string>)
    ensures forall k :: 0 <= k < |Groups(ts)| ==> Groups(ts)[k] != []
  {
    if ts != [] {
      GroupsNonEmpty(ts[1..]);
    }
  }

  /** Grouping loses, duplicates and reorders nothing: the groups concatenate to the cut tokens. */
  lemma {:induction false} GroupsFlatten(ts: seq<string>)
    ensures Flatten(Groups(ts)) == Cuts(ts)
  {
    if ts != [] {
      var rest := Groups(ts[1..]);
      GroupsFlatten(ts[1..]);
      GroupsEmpty(ts[1..]);
      if Breaks(ts[0]) || rest == [] {
        assert ([[Cut(ts[0])]] + rest)[1..] == rest;
      } else {
        var g := [[ts[0]] + rest[0]] + rest[1..];
        assert g[1..] == rest[1..];
        assert Flatten(rest) == rest[0] + Flatten(rest[1..]);
      }
    }
  }

  /** Number of tokens that carry a line break. */
  function BreakCount(ts: seq<string>): (n: nat) {
    if ts == [] then 0 else (if Breaks(ts[0]) then 1 else 0) + BreakCount(ts[1..])
  }

  /**
   * There is one group per line break, plus one for trailing tokens after
   * the last line break: a final empty group is never produced.
   */
  lemma {:induction false} GroupsCount(ts: seq<string>)
    ensures |Groups(ts)| == BreakCount(ts) + (if ts != [] && !Breaks(ts[|ts| - 1]) then 1 else 0)
  {
    if ts != [] {
      GroupsCount(ts[1..]);
      GroupsEmpty(ts[1..]);
      if |ts| > 1 {
        assert ts[1..][|ts| - 2] == ts[|ts| - 1];
      }
    }
  }

  /**
   * The first operation (the only one the agent processes) is made of the
   * tokens up to and including the first one with a line break, cut; if no
   * token has a line break, all tokens form a single operation.
   */
  lemma {:induction false} FirstGroup(ts: seq<string>, k: nat)
    requires k < |ts| && Breaks(ts[k])
    requires forall j :: 0 <= j < k ==> !Breaks(ts[j])
    ensures Groups(ts) != [] && Groups(ts)[0] == Cuts(ts[..k + 1])
  {
    if k == 0 {
      assert Cuts(ts[..1]) == [Cut(ts[0])];
    } else {
      FirstGroup(ts[1..], k - 1);
      assert ts[1..][..k] == ts[1..k + 1];
      assert ts[..k + 1][1..] == ts[1..k + 1];
      assert Cut(ts[0]) == ts[0];
    }
  }

  lemma {:induction false} SingleGroup(ts: seq<string>)
    requires ts != []
    requires forall j :: 0 <= j < |ts| ==> !Breaks(ts[j])
    ensures Groups(ts) == [Cuts(ts)]
  {
    if |ts| == 1 {
      assert ts[1..] == [];
      assert Groups(ts[1..]) == [] && Cuts(ts[1..]) == [];
      assert Groups(ts) == [[Cut(ts[0])]];
      assert Cuts(ts) == [Cut(ts[0])];
    } else {
      SingleGroup(ts[1..]);
      assert Cut(ts[0]) == ts[0];
    }
  }

  /** The accumulator of `group` after some tokens: the groups so far, plus an open empty one after a break. */
  function Open(p: seq<string>): (acc: seq<seq<string>>) {
    if p == [] || Breaks(p[|p| - 1]) then Groups(p) + [[]] else Groups(p)
  }

  /** One unfolding of `Groups` on a token put in front. */
  lemma {:induction false} GroupsCons(a: string, q: seq<string>)
    ensures Groups([a] + q) ==
      if Breaks(a) || Groups(q) == [] then [[Cut(a)]] + Groups(q)
      else [[a] + Groups(q)[0]] + Groups(q)[1..]
  {
    assert ([a] + q)[1..] == q;
  }

  /** Appending a token to the input either starts a new group or extends the last one. */
  lemma {:induction false} GroupsSnoc(p: seq<string>, t: string)
    ensures p == [] || Breaks(p[|p| - 1]) ==> Groups(p + [t]) == Groups(p) + [[Cut(t)]]
    ensures p != [] && !Breaks(p[|p| - 1]) ==>
      |Groups(p)| > 0 &&
      Groups(p + [t]) == Groups(p)[..|Groups(p)| - 1] + [Groups(p)[|Groups(p)| - 1] + [Cut(t)]]
    decreases |p|
  {
    if p == [] {
      assert p + [t] == [t];
      GroupsCons(t, []);
    } else if |p| == 1 {
      GroupsSnocSingle(p[0], t);
      assert p == [p[0]];
    } else {
      var a, q := p[0], p[1..];
      GroupsSnoc(q, t);
      assert p == [a] + q && p[|p| - 1] == q[|q| - 1];
      GroupsSnocStep(a, q, t);
    }
  }

  lemma {:induction false} GroupsSnocSingle(a: string, t: string)
    ensures Breaks(a) ==> Groups([a, t]) == Groups([a]) + [[Cut(t)]]
    ensures !Breaks(a) ==> Groups([a]) == [[a]] && Groups([a, t]) == [[a] + [Cut(t)]]
  {
    assert [a, t][1..] == [t];
    GroupsCons(t, []);
    GroupsCons(a, []);
    GroupsCons(a, [t]);
    assert [a] + [] == [a] && [a] + [t] == [a, t] && [t] + [] == [t];
    if !Breaks(a) {
      assert Cut(a) == a;
    }
  }

  lemma {:induction false} GroupsSnocStep(a: string, q: seq<string>, t: string)
    requires q != []
    requires Breaks(q[|q| - 1]) ==> Groups(q + [t]) == Groups(q) + [[Cut(t)]]
    requires !Breaks(q[|q| - 1]) ==>
      |Groups(q)| > 0 &&
      Groups(q + [t]) == Groups(q)[..|Groups(q)| - 1] + [Groups(q)[|Groups(q)| - 1] + [Cut(t)]]
    ensures var p := [a] + q;
      (Breaks(q[|q| - 1]) ==> Groups(p + [t]) == Groups(p) + [[Cut(t)]]) &&
      (!Breaks(q[|q| - 1]) ==>
        |Groups(p)| > 0 &&
        Groups(p + [t]) == Groups(p)[..|Groups(p)| - 1] + [Groups(p)[|Groups(p)| - 1] + [Cut(t)]])
  {
    assert ([a] + q) + [t] == [a] + (q + [t]);
    GroupsCons(a, q);
    GroupsCons(a, q + [t]);
    GroupsEmpty(q);
    GroupsEmpty(q + [t]);
    if Breaks(q[|q| - 1]) {
      SnocClosed(a, Groups(q), Groups(q + [t]), Cut(t));
    } else {
      SnocOpen(a, Groups(q), Groups(q + [t]), Cut(t));
    }
  }

  lemma {:induction false} SnocClosed(a: string, G: seq<seq<string>>, G': seq<seq<string>>, c: string)
    requires G != [] && G' == G + [[c]]
    ensures (if Breaks(a) then [[Cut(a)]] + G' else [[a] + G'[0]] + G'[1..]) ==
            (if Breaks(a) then [[Cut(a)]] + G else [[a] + G[0]] + G[1..]) + [[c]]
  {
    assert G'[0] == G[0];
    assert G'[1..] == G[1..] + [[c]];
  }

  lemma {:induction false} SnocOpen(a: string, G: seq<seq<string>>, G': seq<seq<string>>, c: string)
    requires G != [] && G' == G[..|G| - 1] + [G[|G| - 1] + [c]]
    ensures var H := if Breaks(a) then [[Cut(a)]] + G else [[a] + G[0]] + G[1..];
      |H| > 0 &&
      (if Breaks(a) then [[Cut(a)]] + G' else [[a] + G'[0]] + G'[1..]) == H[..|H| - 1] + [H[|H| - 1] + [c]]
  {
    var k := |G| - 1;
    if k > 0 {
      assert G'[0] == G[0];
      assert G'[1..] == G[1..k] + [G[k] + [c]];
    } else if !Breaks(a) {
      assert G' == [G[0] + [c]];
      assert [a] + G'[0] == ([a] + G[0]) + [c];
    }
  }

  /** One step of `group`'s loop on the accumulator. */
  function Step(acc: seq<seq<string>>, e: string): (acc': seq<seq<string>>)
    requires |acc| > 0
  {
    acc[|acc| - 1 := acc[|acc| - 1] + [Cut(e)]] + (if Breaks(e) then [[]] else [])
  }

  lemma {:induction false} OpenSnoc(p: seq<string>, e: string)
    ensures |Open(p)| > 0 && Open(p + [e]) == Step(Open(p), e)
  {
    assert (p + [e])[|p + [e]| - 1] == e;
    GroupsSnoc(p, e);
    GroupsEmpty(p);
    var tail: seq<seq<string>> := if Breaks(e) then [[]] else [];
    assert Open(p + [e]) == Groups(p + [e]) + tail;
    if p == [] || Breaks(p[|p| - 1]) {
      StepClosed(Groups(p), e);
    } else {
      StepOpen(Groups(p), e);
    }
  }

  /** A step on an accumulator whose last group is the empty open one. */
  lemma {:induction false} StepClosed(G: seq<seq<string>>, e: string)
    ensures Step(G + [[]], e) == G + [[Cut(e)]] + (if Breaks(e) then [[]] else [])
  {
    FillOpenGroup(G, Cut(e));
  }

  /** A step on an accumulator whose last group is still open. */
  lemma {:induction false} StepOpen(G: seq<seq<string>>, e: string)
    requires |G| > 0
    ensures Step(G, e) == G[..|G| - 1] + [G[|G| - 1] + [Cut(e)]] + (if Breaks(e) then [[]] else [])
  {
    ExtendLastGroup(G, Cut(e));
  }

  lemma {:induction false} FillOpenGroup(G: seq<seq<string>>, x: string)
    ensures var acc := G + [[]]; acc[|acc| - 1 := acc[|acc| - 1] + [x]] == G + [[x]]
  {
    var acc := G + [[]];
    var empty: seq<string> := [];
    assert acc[|acc| - 1] == empty && empty + [x] == [x];
    var upd := acc[|acc| - 1 := [x]];
    assert forall j :: 0 <= j < |G| ==> upd[j] == G[j];
    assert upd == G + [[x]];
  }

  lemma {:induction false} ExtendLastGroup(G: seq<seq<string>>, x: string)
    requires |G| > 0
    ensures G[|G| - 1 := G[|G| - 1] + [x]] == G[..|G| - 1] + [G[|G| - 1] + [x]]
  {
  }

  /**
   * `group(seq, '\n')`: appends each token to the last group, cutting a token
   * with a line break and opening a new group after it; finally drops a
   * trailing empty group.
   */
  method Group(ts: seq<string>) returns (result: seq<seq<string>>)
    ensures result == Groups(ts)
  {
    result := [[]];
    var i := 0;
    while i < |ts|
      invariant 0 <= i <= |ts|
      invariant result == Open(ts[..i])
      invariant |result| > 0
    {
      var e := ts[i];
      assert ts[..i + 1] == ts[..i] + [e];
      OpenSnoc(ts[..i], e);
      var last := |result| - 1;
      if !Breaks(e) {
        result := result[last := result[last] + [e]];
      } else {
        ContainsChar(e, '\n');
        result := result[last := result[last] + [e[..Find(e, LineBreak).value]]];
        result := result + [[]];
      }
      i := i + 1;
    }
    assert ts[..i] == ts;
    if result[|result| - 1] == [] {
      result := result[..|result| - 1];
    }
    GroupsNonEmpty(ts);
  }

  /**
   * `[xs[x:x + k] for x in range(0, len(xs), k)]`: consecutive slices of
   * width `k`, the last one possibly shorter.
   */
  function Chunk(xs: seq<string>, k: nat): (records: seq<seq<string>>)
    requires k > 0
    decreases |xs|
  {
    if xs == [] then []
    else if |xs| <= k then [xs]
    else [xs[..k]] + Chunk(xs[k..], k)
  }

  /** The records concatenate back to the tokens they were cut from. */
  lemma {:induction false} ChunkFlatten(xs: seq<string>, k: nat)
    requires k > 0
    ensures Flatten(Chunk(xs, k)) == xs
    decreases |xs|
  {
    if |xs| > k {
      ChunkFlatten(xs[k..], k);
      assert ([xs[..k]] + Chunk(xs[k..], k))[1..] == Chunk(xs[k..], k);
      assert xs == xs[..k] + xs[k..];
    }
  }

  /**
   * Every record has exactly `k` fields except the last, which has between
   * one and `k`.
   */
  lemma {:induction false} ChunkShape(xs: seq<string>, k: nat)
    requires k > 0
    ensures forall i :: 0 <= i < |Chunk(xs, k)| - 1 ==> |Chunk(xs, k)[i]| == k
    ensures Chunk(xs, k) != [] ==> 1 <= |Chunk(xs, k)[|Chunk(xs, k)| - 1]| <= k
    decreases |xs|
  {
    if |xs| > k {
      var rest := Chunk(xs[k..], k);
      ChunkShape(xs[k..], k);
      var c := [xs[..k]] + rest;
      assert forall i :: 1 <= i < |c| ==> c[i] == rest[i - 1];
    }
  }

  /** Some record has fewer than `width` fields (reading a field of it raises IndexError). */
  predicate ShortRecord(records: seq<seq<string>>, width: nat) {
    exists i :: 0 <= i < |records| && |records[i]| < width
  }

  /** Some record's url field contains "binaries": the update brings its own package file. */
  predicate HasBinary(records: seq<seq<string>>, urlIndex: nat) {
    exists i :: 0 <= i < |records| && urlIndex < |records[i]| && Contains(records[i][urlIndex], "binaries")
  }

  /**
   * The scan over the records in the update branches: it reads every field
   * of each record (raising IndexError, None here, on a short record) and
   * notes whether any url contains "binaries".
   */
  method ScanRecords(records: seq<seq<string>>, width: nat, urlIndex: nat) returns (binaryIncluded: Option<bool>)
    requires urlIndex < width
    ensures binaryIncluded.None? <==> ShortRecord(records, width)
    ensures binaryIncluded.Some? ==> (binaryIncluded.value <==> HasBinary(records, urlIndex))
  {
    var found := false;
    var i := 0;
    while i < |records|
      invariant 0 <= i <= |records|
      invariant forall j :: 0 <= j < i ==> |records[j]| >= width
      invariant found <==> exists j :: 0 <= j < i && Contains(records[j][urlIndex], "binaries")
    {
      if |records[i]| < width {
        return None;
      }
      if Contains(records[i][urlIndex], "binaries") {
        found := true;
      }
      i := i + 1;
    }
    return Some(found);
  }
}
