/**
 The exact-quantile reference of QuantileEstimator/Program.cs: sort the data,
 take the fractional rank `(count - 1) * p` and interpolate linearly between
 the two order statistics around it.

 The list indexer throws for an index outside the list; that exception is the
 `Failure` case here.
 */
module ExactQuantile {
  import opened Wrappers
  import opened Sorting
  import Interpolation

  /** The `ArgumentOutOfRangeException` of the list indexer. */
  datatype Error = IndexOutOfRange

  /** `Math.Ceiling`, as the integer the cast to `int` keeps. */
  function Ceiling(x: real): (c: int)
    ensures x <= c as real < x + 1.0
  {
    if x == x.Floor as real then x.Floor else x.Floor + 1
  }

  /** The list indexer. */
  function At(s: seq<real>, i: int): (r: Result<real, Error>)
    ensures r.Success? <==> 0 <= i < |s|
    ensures r.Success? ==> r.value == s[i]
  {
    if 0 <= i < |s| then Success(s[i]) else Failure(IndexOutOfRange)
  }

  /** `GetExactQuantile`: the value at fractional rank `(count - 1) * p` of the
      data sorted ascending, counting ranks from 0. */
  function GetExactQuantile(data: seq<real>, p: real): (r: Result<real, Error>)
    // the indexer throws exactly for empty data, or for p outside [0, 1]
    // when there are at least two values
    ensures r.Success? <==> |data| > 0 && (|data| == 1 || 0.0 <= p <= 1.0)
    // the result never leaves the range of the data
    ensures r.Success? ==> Min(data) <= r.value <= Max(data)
  {
    SortEnds(data);
    AtRank(Sort(data), Rank(|data|, p))
  }

  /** The fractional rank `(n - 1) * p`, written as repeated addition so that
      it stays linear (`RankIsProduct` shows it is the product). */
  function Rank(n: nat, p: real): (pos: real)
    ensures n == 0 ==> pos == -p
    ensures n == 1 ==> pos == 0.0
    // for p in [0, 1] the rank is in range; for any other p it is out of
    // range as soon as there are two values
    ensures n >= 1 && 0.0 <= p <= 1.0 ==> 0.0 <= pos <= (n - 1) as real
    ensures n >= 2 && p < 0.0 ==> pos < 0.0
    ensures n >= 2 && p > 1.0 ==> pos > (n - 1) as real
    ensures n >= 1 && p == 0.0 ==> pos == 0.0
    ensures n >= 1 && p == 1.0 ==> pos == (n - 1) as real
  {
    if n == 0 then -p
    else if n == 1 then 0.0
    else Rank(n - 1, p) + p
  }

  /** The repeated addition is the product of the source. */
  lemma {:induction false} RankIsProduct(n: nat, p: real)
    ensures Rank(n, p) == (n - 1) as real * p
  {
    if n >= 2 {
      RankIsProduct(n - 1, p);
      assert (n - 2) as real * p + p == (n - 1) as real * p;
    }
  }

  /** A larger quantile never gives a smaller rank. */
  lemma {:induction false} RankMonotone(n: nat, p1: real, p2: real)
    requires n >= 1 && p1 <= p2
    ensures Rank(n, p1) <= Rank(n, p2)
  {
    if n >= 2 {
      RankMonotone(n - 1, p1, p2);
    }
  }

  /** The last lines of `GetExactQuantile`: the value at fractional rank `pos`
      of the sorted sequence `sorted`. */
  function AtRank(sorted: seq<real>, pos: real): (r: Result<real, Error>)
    requires Sorted(sorted)
    // both indices are in range exactly when the rank is
    ensures r.Success? <==> 0.0 <= pos <= (|sorted| - 1) as real
    // a whole rank selects that element; otherwise the value lies between
    // the elements on either side of the rank
    ensures r.Success? && pos == pos.Floor as real ==> r.value == sorted[pos.Floor]
    ensures r.Success? && pos != pos.Floor as real ==>
              pos.Floor + 1 < |sorted| && sorted[pos.Floor] <= r.value <= sorted[pos.Floor + 1]
    ensures r.Success? ==> sorted[0] <= r.value <= sorted[|sorted| - 1]
  {
    var lower := pos.Floor;
    var upper := Ceiling(pos);
    IndexRange(|sorted|, pos);
    if lower == upper then At(sorted, lower)
    else
      match At(sorted, lower)
      case Failure(e) => Failure(e)
      case Success(lo) =>
        match At(sorted, upper)
        case Failure(e) => Failure(e)
        case Success(hi) =>
          assert upper == lower + 1 < |sorted|;
          assert sorted[0] <= lo <= hi <= sorted[|sorted| - 1];
          Success(Interpolation.Lerp(lo, hi, pos - lower as real))
  }

  /** Both the floor and the ceiling of `pos` index a sequence of `n` elements
      exactly when `pos` lies in `[0, n - 1]`; they differ exactly when `pos`
      is not whole, and then by one. */
  lemma IndexRange(n: int, pos: real)
    ensures (0 <= pos.Floor < n && 0 <= Ceiling(pos) < n) <==> 0.0 <= pos <= (n - 1) as real
    ensures Ceiling(pos) == pos.Floor <==> pos == pos.Floor as real
    ensures Ceiling(pos) != pos.Floor ==> Ceiling(pos) == pos.Floor + 1
  {
  }

  /** The sorted data run from the minimum to the maximum. */
  lemma SortEnds(data: seq<real>)
    ensures |data| > 0 ==> Sort(data)[0] == Min(data) && Sort(data)[|data| - 1] == Max(data)
  {
    if |data| > 0 { SortedPermutationEnds(data, Sort(data)); }
  }

  /** Every order statistic is hit exactly at its own quantile `k / (n - 1)`. */
  lemma OrderStatisticAtItsQuantile(data: seq<real>, k: nat)
    requires |data| >= 2 && k < |data|
    ensures GetExactQuantile(data, k as real / (|data| - 1) as real) == Success(Sort(data)[k])
  {
    RankOfOrderStatistic(|data|, k);
    AtWholeRankOf(data, k as real / (|data| - 1) as real, k);
  }

  /** A quantile whose rank is the whole number `k` selects order statistic `k`. */
  lemma AtWholeRankOf(data: seq<real>, p: real, k: nat)
    requires k < |data| && Rank(|data|, p) == k as real
    ensures GetExactQuantile(data, p) == Success(Sort(data)[k])
  {
    AtWholeRank(Sort(data), k);
  }

  /** The quantile `k / (n - 1)` has fractional rank `k`. */
  lemma RankOfOrderStatistic(n: nat, k: nat)
    requires n >= 2
    ensures Rank(n, k as real / (n - 1) as real) == k as real
  {
    var m := (n - 1) as real;
    RankIsProduct(n, k as real / m);
    assert m * (k as real / m) == k as real;
  }

  /** A whole rank in range selects that element. */
  lemma AtWholeRank(s: seq<real>, k: nat)
    requires Sorted(s) && k < |s|
    ensures AtRank(s, k as real) == Success(s[k])
  {
    assert (k as real).Floor == k;
  }

  /** p = 0 gives the minimum and p = 1 the maximum. */
  lemma Extremes(data: seq<real>)
    requires |data| > 0
    ensures GetExactQuantile(data, 0.0) == Success(Min(data))
    ensures GetExactQuantile(data, 1.0) == Success(Max(data))
  {
    SortEnds(data);
    var s, last := Sort(data), (|data| - 1) as real;
    assert Rank(|data|, 0.0) == 0.0 && Rank(|data|, 1.0) == last;
    assert 0.0.Floor == 0 && last.Floor == |data| - 1;
    assert AtRank(s, 0.0) == Success(s[0]);
    assert AtRank(s, last) == Success(s[|data| - 1]);
  }

  /** Only the values count, not the order in which they were collected. */
  lemma IgnoresOrder(a: seq<real>, b: seq<real>, p: real)
    requires multiset(a) == multiset(b)
    ensures GetExactQuantile(a, p) == GetExactQuantile(b, p)
  {
    SortedPermutationUnique(Sort(a), Sort(b));
  }

  /** A larger quantile never gives a smaller value. */
  lemma MonotoneInQuantile(data: seq<real>, p1: real, p2: real)
    requires |data| > 0 && 0.0 <= p1 <= p2 <= 1.0
    ensures GetExactQuantile(data, p1).value <= GetExactQuantile(data, p2).value
  {
    RankMonotone(|data|, p1, p2);
    AtRankMonotone(Sort(data), Rank(|data|, p1), Rank(|data|, p2));
  }

  /** Between two ranks in range, the later one never gives a smaller value. */
  lemma AtRankMonotone(s: seq<real>, pos1: real, pos2: real)
    requires Sorted(s) && 0.0 <= pos1 <= pos2 <= (|s| - 1) as real
    ensures AtRank(s, pos1).value <= AtRank(s, pos2).value
  {
    var k1, k2 := pos1.Floor, pos2.Floor;
    var v1, v2 := AtRank(s, pos1).value, AtRank(s, pos2).value;
    if k1 < k2 {
      if pos1 != k1 as real {
        assert v1 <= s[k1 + 1] <= s[k2];
      }
    } else if pos2 != k2 as real && pos1 != k1 as real {
      Interpolation.Monotone(s[k1], s[k1 + 1], pos1 - k1 as real, pos2 - k2 as real);
    }
  }
}
