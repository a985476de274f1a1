/** The few pieces of Python's string and list behaviour the agent relies on. */
module Wrappers {
  datatype Option<+T> = None | Some(value: T)
}

module Text {
  import opened Wrappers

  /** `sub` occurs in `s` starting at index `i`. */
  predicate OccursAt(s: string, sub: string, i: nat) {
    i + |sub| <= |s| && s[i..i + |sub|] == sub
  }

  /** Python's `sub in s`. */
  predicate Contains(s: string, sub: string) {
    exists i :: 0 <= i <= |s| && OccursAt(s, sub, i)
  }

  /** Python's `s.find(sub)`: the first index where `sub` occurs, None for -1. */
  function Find(s: string, sub: string): (r: Option<nat>)
    ensures r.Some? ==> r.value + |sub| <= |s|
    decreases |s|
  {
    if |s| < |sub| then None
    else if s[..|sub|] == sub then Some(0)
    else
      var rest := Find(s[1..], sub);
      if rest.None? then None else Some(rest.value + 1)
  }

  /**
   * `find` returns the first occurrence: `sub` occurs at the index found and
   * nowhere before it, and -1 means that `sub in s` is false.
   */
  lemma {:induction false} FindSpec(s: string, sub: string)
    ensures var r := Find(s, sub);
      (r.Some? ==> OccursAt(s, sub, r.value) && forall j: nat :: j < r.value ==> !OccursAt(s, sub, j)) &&
      (r.None? <==> !Contains(s, sub))
    decreases |s|
  {
    if |s| >= |sub| && s[..|sub|] != sub {
      FindSpec(s[1..], sub);
      ShiftOccurrence(s, sub);
      assert !OccursAt(s, sub, 0);
      if Contains(s, sub) {
        var k :| 0 <= k <= |s| && OccursAt(s, sub, k);
        assert OccursAt(s[1..], sub, k - 1);
      }
      if Contains(s[1..], sub) {
        var k :| 0 <= k <= |s[1..]| && OccursAt(s[1..], sub, k);
        assert OccursAt(s, sub, k + 1);
      }
    } else if |s| >= |sub| {
      assert OccursAt(s, sub, 0);
    }
  }

  /** For a one-character `sub`, Python's `sub in s` is membership of that character, and `find` succeeds exactly then. */
  lemma {:induction false} ContainsChar(s: string, c: char)
    ensures Contains(s, [c]) <==> c in s
    ensures Find(s, [c]).Some? <==> c in s
  {
    FindSpec(s, [c]);
    if c in s {
      var i :| 0 <= i < |s| && s[i] == c;
      assert s[i..i + 1] == [c];
      assert OccursAt(s, [c], i);
    }
    if Contains(s, [c]) {
      var i :| 0 <= i <= |s| && OccursAt(s, [c], i);
      assert s[i] == s[i..i + 1][0];
    }
  }

  /** An occurrence past index 0 of `s` is an occurrence in `s[1..]`, one place earlier. */
  lemma {:induction false} ShiftOccurrence(s: string, sub: string)
    requires |s| > 0
    ensures forall j: nat :: 1 <= j ==> (OccursAt(s, sub, j) <==> OccursAt(s[1..], sub, j - 1))
    ensures forall j: nat :: OccursAt(s[1..], sub, j) ==> OccursAt(s, sub, j + 1)
  {
    forall j: nat | 1 <= j
      ensures OccursAt(s, sub, j) <==> OccursAt(s[1..], sub, j - 1)
    {
      if j + |sub| <= |s| {
        assert s[1..][j - 1..j - 1 + |sub|] == s[j..j + |sub|];
      }
    }
    forall j: nat | OccursAt(s[1..], sub, j)
      ensures OccursAt(s, sub, j + 1)
    {
      assert s[1..][j..j + |sub|] == s[j + 1..j + 1 + |sub|];
    }
  }

  /** Python's `s.split(sep)`: pieces between the occurrences of `sep`, found left to right. */
  function Split(s: string, sep: string): (parts: seq<string>)
    requires |sep| > 0
    ensures |parts| >= 1
    decreases |s|
  {
    var found := Find(s, sep);
    if found.None? then [s]
    else [s[..found.value]] + Split(s[found.value + |sep|..], sep)
  }

  /** Python's `sep.join(parts)`. */
  function Join(parts: seq<string>, sep: string): (joined: string) {
    if |parts| == 0 then ""
    else if |parts| == 1 then parts[0]
    else parts[0] + sep + Join(parts[1..], sep)
  }

  /** Joining the pieces of a split with the same separator gives back the string. */
  lemma {:induction false} JoinSplit(s: string, sep: string)
    requires |sep| > 0
    ensures Join(Split(s, sep), sep) == s
    decreases |s|
  {
    FindSpec(s, sep);
    var found := Find(s, sep);
    if found.Some? {
      var i := found.value;
      var rest := s[i + |sep|..];
      SplitAt(s, sep, i);
      JoinSplit(rest, sep);
      JoinCons(s[..i], Split(rest, sep), sep);
      Reassemble(s, sep, i);
    }
  }

  /** One unfolding of `Split` at the first occurrence of the separator. */
  lemma {:induction false} SplitAt(s: string, sep: string, i: nat)
    requires |sep| > 0 && Find(s, sep) == Some(i)
    ensures Split(s, sep) == [s[..i]] + Split(s[i + |sep|..], sep)
  {
  }

  lemma {:induction false} Reassemble(s: string, sep: string, i: nat)
    requires OccursAt(s, sep, i)
    ensures s == s[..i] + sep + s[i + |sep|..]
  {
    assert s[i..i + |sep|] == sep;
    assert s == s[..i] + s[i..i + |sep|] + s[i + |sep|..];
  }

  /** `t` is a suffix of `s`. */
  predicate EndsWith(s: string, t: string) {
    |t| <= |s| && s[|s| - |t|..] == t
  }

  lemma {:induction false} LastOfCons(head: string, tail: seq<string>)
    requires |tail| > 0
    ensures ([head] + tail)[|[head] + tail| - 1] == tail[|tail| - 1]
  {
  }

  /** The last piece of a split holds no separator. */
  lemma {:induction false} SplitLastPiece(s: string, sep: string)
    requires |sep| > 0
    ensures var parts := Split(s, sep); !Contains(parts[|parts| - 1], sep)
    decreases |s|
  {
    var found := Find(s, sep);
    if found.Some? {
      var i := found.value;
      var rest := s[i + |sep|..];
      SplitAt(s, sep, i);
      SplitLastPiece(rest, sep);
      LastOfCons(s[..i], Split(rest, sep));
    } else {
      FindSpec(s, sep);
    }
  }

  /** A string in which `find` succeeds ends with a separator followed by the last piece of its split. */
  lemma {:induction false} SplitLastSuffix(s: string, sep: string)
    requires |sep| > 0 && Find(s, sep).Some?
    ensures var parts := Split(s, sep); |parts| >= 2 && EndsWith(s, sep + parts[|parts| - 1])
  {
    SplitMany(s, sep);
    JoinSplit(s, sep);
    JoinEndsWithLast(Split(s, sep), sep);
  }

  /** A string in which `find` succeeds splits into at least two pieces. */
  lemma {:induction false} SplitMany(s: string, sep: string)
    requires |sep| > 0 && Find(s, sep).Some?
    ensures |Split(s, sep)| >= 2
  {
    SplitAt(s, sep, Find(s, sep).value);
  }

  lemma {:induction false} JoinEndsWithLast(parts: seq<string>, sep: string)
    requires |parts| >= 2
    ensures EndsWith(Join(parts, sep), sep + parts[|parts| - 1])
  {
    JoinLast(parts, sep);
    var init, last := Join(parts[..|parts| - 1], sep), parts[|parts| - 1];
    var s := Join(parts, sep);
    assert s == init + (sep + last);
    assert s[|s| - |sep + last|..] == sep + last;
  }

  /** Joining at least two pieces puts the separator right before the last one. */
  lemma {:induction false} JoinLast(parts: seq<string>, sep: string)
    requires |parts| >= 2
    ensures Join(parts, sep) == Join(parts[..|parts| - 1], sep) + sep + parts[|parts| - 1]
    decreases |parts|
  {
    var n := |parts|;
    if n == 2 {
      assert parts[..1] == [parts[0]];
      assert parts[1..] == [parts[1]];
    } else {
      var tail := parts[1..];
      JoinLast(tail, sep);
      assert tail[..n - 2] == parts[..n - 1][1..];
      assert tail[n - 2] == parts[n - 1];
      var mid := Join(tail[..n - 2], sep);
      assert parts[0] + sep + (mid + sep + parts[n - 1]) == (parts[0] + sep + mid) + sep + parts[n - 1];
    }
  }

  lemma {:induction false} JoinCons(head: string, tail: seq<string>, sep: string)
    requires |tail| >= 1
    ensures Join([head] + tail, sep) == head + sep + Join(tail, sep)
  {
    assert ([head] + tail)[1..] == tail;
  }

  /** The first piece of a split is the text before the first separator (all of it if none). */
  lemma {:induction false} SplitHead(s: string, sep: string)
    requires |sep| > 0
    ensures Contains(s, sep) ==> Find(s, sep).Some? && Split(s, sep)[0] == s[..Find(s, sep).value]
    ensures !Contains(s, sep) ==> Split(s, sep) == [s]
  {
    FindSpec(s, sep);
  }

  /** Concatenation of a sequence of sequences (Python's repeated `extend`). */
  function Flatten<T>(xss: seq<seq<T>>): (xs: seq<T>) {
    if xss == [] then [] else xss[0] + Flatten(xss[1..])
  }
}
