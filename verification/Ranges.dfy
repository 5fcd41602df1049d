/** Unordered collections of byte ranges: how often a position is hit, how many bytes they hold. */
module Ranges {
  datatype Range = Range(lo: nat, hi: nat)

  function One(r: Range, p: nat): nat {
    if r.lo <= p < r.hi then 1 else 0
  }

  function Hits(s: seq<Range>, p: nat): nat {
    if s == [] then 0 else Hits(s[..|s| - 1], p) + One(s[|s| - 1], p)
  }

  function Width(r: Range): nat {
    if r.lo < r.hi then r.hi - r.lo else 0
  }

  function Bytes(s: seq<Range>): nat {
    if s == [] then 0 else Bytes(s[..|s| - 1]) + Width(s[|s| - 1])
  }

  /** Takes element `i` out by moving the last one into its place. */
  function SwapRemove<T>(s: seq<T>, i: nat): (r: seq<T>)
    requires i < |s|
    ensures |r| == |s| - 1
    ensures forall x :: x in r ==> x in s
  {
    s[i := s[|s| - 1]][..|s| - 1]
  }

  lemma SwapRemoveKeeps<T>(s: seq<T>, i: nat, j: nat)
    requires i < |s| && j < |s| && i != j
    ensures s[j] in SwapRemove(s, i)
  {
    var r := SwapRemove(s, i);
    if j == |s| - 1 {
      assert r[i] == s[j];
    } else {
      assert r[j] == s[j];
    }
  }

  lemma {:induction false} HitsUpdate(s: seq<Range>, i: nat, x: Range, p: nat)
    requires i < |s|
    ensures Hits(s[i := x], p) + One(s[i], p) == Hits(s, p) + One(x, p)
    ensures Bytes(s[i := x]) + Width(s[i]) == Bytes(s) + Width(x)
  {
    var init := s[..|s| - 1];
    if i == |s| - 1 {
      assert s[i := x][..|s| - 1] == init;
    } else {
      HitsUpdate(init, i, x, p);
      assert s[i := x][..|s| - 1] == init[i := x];
    }
  }

  lemma HitsSwapRemove(s: seq<Range>, i: nat, p: nat)
    requires i < |s|
    ensures Hits(SwapRemove(s, i), p) == Hits(s, p) - One(s[i], p)
    ensures Bytes(SwapRemove(s, i)) == Bytes(s) - Width(s[i])
  {
    HitsUpdate(s, i, s[|s| - 1], p);
  }

  lemma HitsAppend(s: seq<Range>, x: Range, p: nat)
    ensures Hits(s + [x], p) == Hits(s, p) + One(x, p)
    ensures Bytes(s + [x]) == Bytes(s) + Width(x)
  {
    assert (s + [x])[..|s|] == s;
  }

  lemma HitsAt(s: seq<Range>, i: nat, p: nat)
    requires i < |s|
    ensures One(s[i], p) <= Hits(s, p)
  {
    HitsSwapRemove(s, i, p);
  }

  lemma {:induction false} HitsFrom(s: seq<Range>, p: nat) returns (i: nat)
    requires Hits(s, p) > 0
    ensures i < |s| && s[i].lo <= p < s[i].hi
  {
    if One(s[|s| - 1], p) == 1 {
      i := |s| - 1;
    } else {
      i := HitsFrom(s[..|s| - 1], p);
    }
  }
}
