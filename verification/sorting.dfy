/**
 Ascending sort of a sequence of reals, and the extreme values of a sequence.

 Both `Array.Sort` (used when the five warm-up samples become markers) and
 `OrderBy` (used by the exact-quantile reference) produce the unique ascending
 permutation of their input; `Sort` is that permutation.
 */
module Sorting {

  /** Non-decreasing order. */
  predicate Sorted(s: seq<real>)
  {
    forall i, j :: 0 <= i < j < |s| ==> s[i] <= s[j]
  }

  /** Inserts `x` into an already sorted sequence, keeping it sorted. */
  function Insert(x: real, s: seq<real>): (r: seq<real>)
    requires Sorted(s)
    ensures |r| == |s| + 1
    ensures multiset(r) == multiset(s) + multiset{x}
    ensures Sorted(r)
  {
    if s == [] then [x]
    else if x <= s[0] then [x] + s
    else
      var tail := Insert(x, s[1..]);
      assert s == [s[0]] + s[1..];
      HeadStaysFirst(x, s, tail);
      [s[0]] + tail
  }

  /** Inserting into the tail something above the head keeps the head first. */
  lemma HeadStaysFirst(x: real, s: seq<real>, tail: seq<real>)
    requires Sorted(s) && |s| > 0 && s[0] < x
    requires Sorted(tail) && multiset(tail) == multiset(s[1..]) + multiset{x}
    ensures Sorted([s[0]] + tail)
  {
    forall k | 0 <= k < |tail| ensures s[0] <= tail[k] {
      assert tail[k] in multiset(tail);
      if tail[k] != x {
        assert tail[k] in s[1..];
      }
    }
  }

  /** The ascending permutation of `s`. */
  function Sort(s: seq<real>): (r: seq<real>)
    ensures |r| == |s|
    ensures multiset(r) == multiset(s)
    ensures Sorted(r)
  {
    if s == [] then []
    else
      assert s == s[..|s| - 1] + [s[|s| - 1]];
      Insert(s[|s| - 1], Sort(s[..|s| - 1]))
  }

  /** The least element of a non-empty sequence. */
  function Min(s: seq<real>): (m: real)
    requires |s| > 0
    ensures m in s
    ensures forall k :: 0 <= k < |s| ==> m <= s[k]
  {
    if |s| == 1 then s[0]
    else
      var rest := Min(s[..|s| - 1]);
      if s[|s| - 1] < rest then s[|s| - 1] else rest
  }

  /** The greatest element of a non-empty sequence. */
  function Max(s: seq<real>): (m: real)
    requires |s| > 0
    ensures m in s
    ensures forall k :: 0 <= k < |s| ==> s[k] <= m
  {
    if |s| == 1 then s[0]
    else
      var rest := Max(s[..|s| - 1]);
      if s[|s| - 1] > rest then s[|s| - 1] else rest
  }

  /** A sorted permutation starts at the minimum and ends at the maximum. */
  lemma SortedPermutationEnds(s: seq<real>, r: seq<real>)
    requires |s| > 0
    requires multiset(r) == multiset(s)
    requires Sorted(r)
    ensures |r| == |s|
    ensures r[0] == Min(s)
    ensures r[|r| - 1] == Max(s)
  {
    assert |r| == |multiset(r)| == |multiset(s)| == |s|;
    var lo, hi := Min(s), Max(s);
    assert lo in multiset(r) && hi in multiset(r);
    assert r[0] in multiset(s) && r[|r| - 1] in multiset(s);
  }

  /** A multiset has exactly one ascending arrangement. */
  lemma {:induction false} SortedPermutationUnique(a: seq<real>, b: seq<real>)
    requires Sorted(a) && Sorted(b) && multiset(a) == multiset(b)
    ensures a == b
    decreases |a|
  {
    assert |a| == |multiset(a)| == |multiset(b)| == |b|;
    if |a| > 0 {
      SortedHeadsAgree(a, b);
      DropHead(a);
      DropHead(b);
      SortedPermutationUnique(a[1..], b[1..]);
      assert a == [a[0]] + a[1..] && b == [b[0]] + b[1..];
    }
  }

  /** Sorted arrangements of one multiset start with the same element. */
  lemma SortedHeadsAgree(a: seq<real>, b: seq<real>)
    requires Sorted(a) && Sorted(b) && multiset(a) == multiset(b) && |a| > 0
    ensures |b| > 0 && a[0] == b[0]
  {
    assert a[0] in multiset(b);
    var i :| 0 <= i < |b| && b[i] == a[0];
    assert b[0] in multiset(a);
    var j :| 0 <= j < |a| && a[j] == b[0];
  }

  /** Dropping the head keeps a sequence sorted and removes one occurrence. */
  lemma DropHead(a: seq<real>)
    requires Sorted(a) && |a| > 0
    ensures Sorted(a[1..])
    ensures multiset(a[1..]) == multiset(a) - multiset{a[0]}
  {
    assert a == [a[0]] + a[1..];
  }
}
