/**
 Properties of whole runs of the estimator: a fresh estimator fed a sequence of
 samples, one `Add` per sample.
 */
module EstimatorTheorems {
  import opened Wrappers
  import opened Sorting
  import opened Estimator

  /** A fresh estimator for `p` after the samples `xs`. */
  function Estimate(p: real, xs: seq<real>): (st: State)
    requires 0.0 <= p <= 1.0
    ensures st.WellFormed()
  {
    Run(Create(p).value, xs)
  }

  /** `k` additions of `c` to zero, the way the desired positions accumulate
      their increments. */
  function Accumulate(k: nat, c: real): real
  {
    if k == 0 then 0.0 else Accumulate(k - 1, c) + c
  }

  /** `k` additions of `c` amount to `k * c`. */
  lemma {:induction false} AccumulateIsProduct(k: nat, c: real)
    ensures Accumulate(k, c) == k as real * c
  {
    if k > 0 {
      AccumulateIsProduct(k - 1, c);
      assert (k - 1) as real * c + c == k as real * c;
    }
  }

  /** The desired rank of marker `i` after `n` samples: its initial rank, plus
      its increment once for every sample after the fifth. */
  function DesiredRank(p: real, n: nat, i: int): real
    requires 0 <= i < 5
  {
    (i + 1) as real + Accumulate(if n > 5 then n - 5 else 0, Increments(p)[i])
  }

  /** The desired positions after `n` samples. */
  ghost predicate DesiredAfter(p: real, n: nat, st: State)
    requires st.WellFormed()
  {
    forall i :: 0 <= i < 5 ==> st.des[i] == DesiredRank(p, n, i)
  }

  /** The markers after the samples `xs`: verbatim during warm-up, then sorted
      between the running minimum and the largest of the first five. */
  ghost predicate MarkersAfter(xs: seq<real>, st: State)
    requires st.WellFormed()
  {
    && (|xs| < 5 ==> forall k :: 0 <= k < 5 ==> st.q[k] == (if k < |xs| then xs[k] else 0.0))
    && (|xs| == 5 ==> multiset(st.q) == multiset(xs))
    && (|xs| >= 5 ==> Ordered(st.q) && st.q[0] == Min(xs) && st.q[4] == Max(xs[..5]))
  }

  /** The positions after `n` samples: ranks 1..5 until the sixth sample,
      marker 0 at rank 1 and marker 4 at rank 5 or above throughout. */
  ghost predicate PositionsAfter(n: nat, st: State)
    requires st.WellFormed()
  {
    && st.pos[0] == 1.0
    && (n <= 5 ==> st.pos == InitialRanks)
    && st.pos[4] >= 5.0
  }

  /** Everything that holds of the state reached from a fresh estimator after `xs`. */
  ghost predicate Reached(p: real, xs: seq<real>, st: State)
  {
    && st.WellFormed()
    && st.p == p && st.n == |xs| && st.inc == Increments(p)
    && DesiredAfter(p, |xs|, st)
    && PositionsAfter(|xs|, st)
    && MarkersAfter(xs, st)
  }

  lemma {:induction false} RunInvariant(p: real, xs: seq<real>)
    requires 0.0 <= p <= 1.0
    ensures Reached(p, xs, Estimate(p, xs))
    decreases |xs|
  {
    if xs == [] {
    } else {
      var init, s := xs[..|xs| - 1], xs[|xs| - 1];
      assert xs == init + [s];
      RunInvariant(p, init);
      var st := Estimate(p, init);
      assert Estimate(p, xs) == Add(st, s);
      if |init| < 4 {
        WarmUpStep(p, init, s, st);
      } else if |init| == 4 {
        FifthStep(p, init, s, st);
      } else {
        StreamingStep(p, init, s, st);
      }
    }
  }

  /** Samples 1..4 are stored verbatim. */
  lemma WarmUpStep(p: real, init: seq<real>, s: real, st: State)
    requires Reached(p, init, st) && |init| < 4
    ensures Reached(p, init + [s], Add(st, s))
  {
    var xs, n := init + [s], |init|;
    var st' := Add(st, s);
    assert st' == st.(n := n + 1, q := st.q[n := s]);
    forall k | 0 <= k < 5
      ensures st'.q[k] == (if k < |xs| then xs[k] else 0.0)
    {
      if k < n { assert xs[k] == init[k]; }
    }
    forall i | 0 <= i < 5 ensures st'.des[i] == DesiredRank(p, |xs|, i) {
      assert st'.des[i] == st.des[i] == DesiredRank(p, n, i);
    }
  }

  /** The fifth sample sorts the markers. */
  lemma FifthStep(p: real, init: seq<real>, s: real, st: State)
    requires Reached(p, init, st) && |init| == 4
    ensures Reached(p, init + [s], Add(st, s))
  {
    FifthMarkers(init, s, st);
    var st' := Add(st, s);
    forall i | 0 <= i < 5 ensures st'.des[i] == DesiredRank(p, 5, i) {
      assert st'.des[i] == st.des[i] == DesiredRank(p, 4, i);
    }
  }

  /** The markers after the fifth sample are the five samples in order. */
  lemma FifthMarkers(init: seq<real>, s: real, st: State)
    requires st.WellFormed() && st.n == |init| == 4
    requires forall k :: 0 <= k < 5 ==> st.q[k] == (if k < 4 then init[k] else 0.0)
    ensures MarkersAfter(init + [s], Add(st, s))
  {
    var xs := init + [s];
    var q' := Add(st, s).q;
    assert st.q[4 := s] == xs by {
      forall k | 0 <= k < 5 ensures st.q[4 := s][k] == xs[k] {
        if k < 4 { assert xs[k] == init[k]; }
      }
    }
    OrderedIffSorted(q');
    SortedPermutationEnds(xs, q');
    assert xs[..5] == xs;
  }

  /** Every later sample keeps the invariant. */
  lemma StreamingStep(p: real, init: seq<real>, s: real, st: State)
    requires Reached(p, init, st) && |init| >= 5
    ensures Reached(p, init + [s], Add(st, s))
  {
    var st' := Add(st, s);
    StreamingDesired(p, init, s, st);
    StreamingMarkers(init, s, st);
    StreamingPositions(init, s, st);
    assert st'.p == p && st'.n == |init + [s]| && st'.inc == Increments(p);
  }

  /** Every later sample keeps marker 0 at rank 1 and marker 4 at rank 5 or above. */
  lemma StreamingPositions(init: seq<real>, s: real, st: State)
    requires st.WellFormed() && st.n == |init| >= 5
    requires PositionsAfter(|init|, st)
    ensures PositionsAfter(|init + [s]|, Add(st, s))
  {
  }

  /** Every later sample advances the desired positions by one increment. */
  lemma StreamingDesired(p: real, init: seq<real>, s: real, st: State)
    requires st.WellFormed() && st.n == |init| >= 5 && st.inc == Increments(p)
    requires DesiredAfter(p, |init|, st)
    ensures DesiredAfter(p, |init + [s]|, Add(st, s))
  {
    var st', n := Add(st, s), |init|;
    forall i | 0 <= i < 5 ensures st'.des[i] == DesiredRank(p, n + 1, i) {
      assert st'.des[i] == st.des[i] + st.inc[i];
    }
  }

  /** Every later sample keeps the markers sorted between the running minimum
      and the largest warm-up sample. */
  lemma StreamingMarkers(init: seq<real>, s: real, st: State)
    requires st.WellFormed() && st.n == |init| >= 5
    requires MarkersAfter(init, st)
    ensures MarkersAfter(init + [s], Add(st, s))
  {
    var xs := init + [s];
    assert xs[..5] == init[..5];
    assert xs[..|xs| - 1] == init;
    assert Min(xs) == (if s < Min(init) then s else Min(init));
  }

  /** Warm-up: the five first samples become the markers in ascending order,
      with positions and desired positions still at ranks 1..5. */
  lemma WarmUpSorts(p: real, xs: seq<real>)
    requires 0.0 <= p <= 1.0 && |xs| == 5
    ensures Ordered(Estimate(p, xs).q)
    ensures multiset(Estimate(p, xs).q) == multiset(xs)
    ensures Estimate(p, xs).pos == InitialRanks && Estimate(p, xs).des == InitialRanks
  {
    RunInvariant(p, xs);
    var st := Estimate(p, xs);
    forall i | 0 <= i < 5 ensures st.des[i] == InitialRanks[i] {
      assert st.des[i] == DesiredRank(p, 5, i);
    }
  }

  /** The warm-up example: samples 5, 3, 1, 4, 2 give markers 1, 2, 3, 4, 5 at
      positions 1..5. */
  lemma WarmUpExample(p: real)
    requires 0.0 <= p <= 1.0
    ensures Estimate(p, [5.0, 3.0, 1.0, 4.0, 2.0]).q == [1.0, 2.0, 3.0, 4.0, 5.0]
    ensures Estimate(p, [5.0, 3.0, 1.0, 4.0, 2.0]).pos == [1.0, 2.0, 3.0, 4.0, 5.0]
  {
    RunInvariant(p, [5.0, 3.0, 1.0, 4.0, 2.0]);
    var st := Estimate(p, [5.0, 3.0, 1.0, 4.0, 2.0]);
    SameValues();
    OrderedPermutationUnique(st.q, [1.0, 2.0, 3.0, 4.0, 5.0]);
  }

  lemma SameValues()
    ensures multiset([5.0, 3.0, 1.0, 4.0, 2.0]) == multiset([1.0, 2.0, 3.0, 4.0, 5.0])
  {
  }

  /** Two ordered markers sequences holding the same values are equal. */
  lemma OrderedPermutationUnique(q: seq<real>, t: seq<real>)
    requires |q| == 5 && |t| == 5 && Ordered(q) && Ordered(t)
    requires multiset(q) == multiset(t)
    ensures q == t
  {
    OrderedIffSorted(q);
    OrderedIffSorted(t);
    SortedPermutationUnique(q, t);
  }

  /** The desired positions in closed form after `n >= 5` samples: each has
      grown from its initial rank by its increment once per sample after the
      fifth. */
  predicate DesiredClosed(p: real, n: nat, des: seq<real>)
    requires |des| == 5
  {
    forall i :: 0 <= i < 5 ==> des[i] == (i + 1) as real + (n - 5) as real * Increments(p)[i]
  }

  /** The repeated additions of `UpdateMarkers` amount to the closed form. */
  lemma DesiredClosedForm(p: real, xs: seq<real>)
    requires 0.0 <= p <= 1.0 && |xs| >= 5
    ensures DesiredClosed(p, |xs|, Estimate(p, xs).des)
  {
    DesiredOfEstimate(p, xs);
    DesiredClosedFormAt(p, |xs|, Estimate(p, xs));
  }

  /** Marker 0 keeps desired rank 1 and marker 4 has desired rank `N`, the
      number of samples. */
  lemma DesiredEnds(p: real, xs: seq<real>)
    requires 0.0 <= p <= 1.0 && |xs| >= 5
    ensures Estimate(p, xs).des[0] == 1.0 && Estimate(p, xs).des[4] == |xs| as real
  {
    DesiredOfEstimate(p, xs);
    DesiredClosedFormAt(p, |xs|, Estimate(p, xs));
  }

  /** The desired positions part of `RunInvariant`. */
  lemma DesiredOfEstimate(p: real, xs: seq<real>)
    requires 0.0 <= p <= 1.0
    ensures Estimate(p, xs).inc == Increments(p) && DesiredAfter(p, |xs|, Estimate(p, xs))
  {
    RunInvariant(p, xs);
  }

  /** `DesiredClosedForm` and `DesiredEnds` for any state with the desired
      positions of `n` samples. */
  lemma DesiredClosedFormAt(p: real, n: nat, st: State)
    requires st.WellFormed() && st.inc == Increments(p) && DesiredAfter(p, n, st) && n >= 5
    ensures DesiredClosed(p, n, st.des)
    ensures st.des[0] == 1.0 && st.des[4] == n as real
  {
    forall i | 0 <= i < 5
      ensures st.des[i] == (i + 1) as real + (n - 5) as real * Increments(p)[i]
    {
      DesiredRankIsProduct(p, n, i);
    }
  }

  /** One desired rank in closed form. */
  lemma DesiredRankIsProduct(p: real, n: nat, i: int)
    requires 0 <= i < 5 && n >= 5
    ensures DesiredRank(p, n, i) == (i + 1) as real + (n - 5) as real * Increments(p)[i]
  {
    AccumulateIsProduct(n - 5, Increments(p)[i]);
  }

  /** The query returns rank 3 until the sixth sample and `3 + (N-5)*p` after
      it, whatever the sample values. */
  lemma QuantileClosedForm(p: real, xs: seq<real>)
    requires 0.0 <= p <= 1.0
    ensures GetQuantile(Estimate(p, xs)) == if |xs| <= 5 then 3.0 else 3.0 + (|xs| - 5) as real * p
  {
    DesiredOfEstimate(p, xs);
    QuantileClosedFormAt(p, xs, Estimate(p, xs));
  }

  /** `QuantileClosedForm` for any state with the desired positions of `xs`. */
  lemma QuantileClosedFormAt(p: real, xs: seq<real>, st: State)
    requires st.WellFormed() && st.inc == Increments(p) && DesiredAfter(p, |xs|, st)
    ensures GetQuantile(st) == if |xs| <= 5 then 3.0 else 3.0 + (|xs| - 5) as real * p
  {
    if |xs| <= 5 {
      assert st.des[2] == DesiredRank(p, |xs|, 2);
    } else {
      DesiredClosedFormAt(p, |xs|, st);
    }
  }

  /** Two streams of the same length yield the same query result. */
  lemma QuantileIgnoresValues(p: real, xs: seq<real>, ys: seq<real>)
    requires 0.0 <= p <= 1.0 && |xs| == |ys|
    ensures GetQuantile(Estimate(p, xs)) == GetQuantile(Estimate(p, ys))
  {
    RunInvariant(p, xs);
    RunInvariant(p, ys);
    assert Estimate(p, xs).des[2] == DesiredRank(p, |xs|, 2);
    assert Estimate(p, ys).des[2] == DesiredRank(p, |ys|, 2);
  }

  /** After warm-up the markers are in non-decreasing order, marker 0 is the
      least sample so far and marker 4 the greatest of the first five. */
  lemma MarkersAfterWarmUp(p: real, xs: seq<real>)
    requires 0.0 <= p <= 1.0 && |xs| >= 5
    ensures Ordered(Estimate(p, xs).q)
    ensures Estimate(p, xs).q[0] == Min(xs)
    ensures Estimate(p, xs).q[4] == Max(xs[..5])
    ensures Estimate(p, xs).pos[0] == 1.0
  {
    RunInvariant(p, xs);
  }

  /** Adding a sample never lowers the position of marker 4. */
  lemma LastPositionNeverDecreases(p: real, xs: seq<real>, s: real)
    requires 0.0 <= p <= 1.0
    ensures Estimate(p, xs).pos[4] <= Estimate(p, xs + [s]).pos[4]
  {
    assert (xs + [s])[..|xs|] == xs;
    RunInvariant(p, xs);
  }

  /* Positions need not stay increasing. With p = 1/2, the samples 1, 2, 3, 4, 5
     followed by five samples equal to the minimum 1 each bump position 1; the
     adjustment pulls it back while it is a rank or more above its desired
     rank, and after the tenth sample it stays above position 2. */

  /** The state after the samples 1, 2, 3, 4, 5: the markers are already in order. */
  lemma AfterOneToFive(p: real, st: State)
    requires Reached(p, [1.0, 2.0, 3.0, 4.0, 5.0], st)
    ensures st == State(p, 5, InitialRanks, InitialRanks, InitialRanks, Increments(p))
  {
    OrderedPermutationUnique(st.q, InitialRanks);
    forall i | 0 <= i < 5 ensures st.des[i] == InitialRanks[i] {
      assert st.des[i] == DesiredRank(p, 5, i);
    }
  }

  /** The state after the samples 1, 2, 3, 4, 5 and then `k` - 5 samples equal
      to 1, for `k` in 5..10, with p = 1/2. */
  function Crossing(k: int): State
    requires 5 <= k <= 10
  {
    var ranks := InitialRanks;
    match k
    case 5 => State(0.5, 5, ranks, ranks, ranks, Increments(0.5))
    case 6 => State(0.5, 6, ranks, [1.0, 3.0, 3.0, 4.0, 5.0], [1.0, 2.25, 3.5, 4.75, 6.0], Increments(0.5))
    case 7 => State(0.5, 7, [1.0, 5.0 / 3.0, 3.0, 4.0, 5.0], [1.0, 3.0, 3.0, 4.0, 5.0], [1.0, 2.5, 4.0, 5.5, 7.0], Increments(0.5))
    case 8 => State(0.5, 8, [1.0, 13.0 / 9.0, 3.0, 4.0, 5.0], [1.0, 3.0, 3.0, 4.0, 5.0], [1.0, 2.75, 4.5, 6.25, 8.0], Increments(0.5))
    case 9 => State(0.5, 9, [1.0, 35.0 / 27.0, 3.0, 4.0, 5.0], [1.0, 3.0, 3.0, 4.0, 5.0], [1.0, 3.0, 5.0, 7.0, 9.0], Increments(0.5))
    case _ => State(0.5, 10, [1.0, 35.0 / 27.0, 3.0, 4.0, 5.0], [1.0, 4.0, 3.0, 4.0, 5.0], [1.0, 3.25, 5.5, 7.75, 10.0], Increments(0.5))
  }

  lemma CrossingAdjust6()
    ensures AdjustMarkers([1.0, 2.0, 3.0, 4.0, 5.0], [1.0, 3.0, 3.0, 4.0, 5.0], [1.0, 2.25, 3.5, 4.75, 6.0])
         == ([1.0, 2.0, 3.0, 4.0, 5.0], [1.0, 3.0, 3.0, 4.0, 5.0])
  {
  }

  lemma CrossingStep6()
    ensures Add(Crossing(5), 1.0) == Crossing(6)
  {
    var st := Crossing(5);
    assert Bucket(st.q, 1.0) == 1;
    assert st.pos[1 := st.pos[1] + 1.0] == [1.0, 3.0, 3.0, 4.0, 5.0];
    CrossingAdvance(6);
    CrossingAdjust6();
  }

  lemma CrossingAdjust7()
    ensures AdjustMarkers([1.0, 2.0, 3.0, 4.0, 5.0], [1.0, 4.0, 3.0, 4.0, 5.0], [1.0, 2.5, 4.0, 5.5, 7.0])
         == ([1.0, 5.0 / 3.0, 3.0, 4.0, 5.0], [1.0, 3.0, 3.0, 4.0, 5.0])
  {
    var m, pos, des := [1.0, 2.0, 3.0, 4.0, 5.0], [1.0, 4.0, 3.0, 4.0, 5.0], [1.0, 2.5, 4.0, 5.5, 7.0];
    // marker 1 moves down: the parabolic candidate leaves (m[0], m[2]), the linear one is used
    assert Direction(pos, des, 1) == -1;
    assert Parabolic(m, pos, 1, -1.0) == Some(1.0);
    assert Linear(m, pos, 1, -1) == 5.0 / 3.0;
    var m', pos' := m[1 := 5.0 / 3.0], [1.0, 3.0, 3.0, 4.0, 5.0];
    assert CalculateMarker(m, pos, 1, -1) == Some(1.0);
    assert m' == [1.0, 5.0 / 3.0, 3.0, 4.0, 5.0];
    assert pos[1 := pos[1] + (-1) as real] == pos';
    assert AdjustMarker(m, pos, des, 1) == (m', pos');
    // markers 2 and 3 have no room above
    assert Direction(pos', des, 2) == 0 && Direction(pos', des, 3) == 0;
  }

  lemma CrossingStep7()
    ensures Add(Crossing(6), 1.0) == Crossing(7)
  {
    var st := Crossing(6);
    assert Bucket(st.q, 1.0) == 1;
    assert st.pos[1 := st.pos[1] + 1.0] == [1.0, 4.0, 3.0, 4.0, 5.0];
    CrossingAdvance(7);
    CrossingAdjust7();
  }

  lemma CrossingAdjust8()
    ensures AdjustMarkers([1.0, 5.0 / 3.0, 3.0, 4.0, 5.0], [1.0, 4.0, 3.0, 4.0, 5.0], [1.0, 2.75, 4.5, 6.25, 8.0])
         == ([1.0, 13.0 / 9.0, 3.0, 4.0, 5.0], [1.0, 3.0, 3.0, 4.0, 5.0])
  {
    var m, pos, des := [1.0, 5.0 / 3.0, 3.0, 4.0, 5.0], [1.0, 4.0, 3.0, 4.0, 5.0], [1.0, 2.75, 4.5, 6.25, 8.0];
    // marker 1 moves down: the parabolic candidate leaves (m[0], m[2]), the linear one is used
    assert Direction(pos, des, 1) == -1;
    assert Parabolic(m, pos, 1, -1.0) == Some(1.0 / 3.0);
    assert Linear(m, pos, 1, -1) == 13.0 / 9.0;
    var m', pos' := m[1 := 13.0 / 9.0], [1.0, 3.0, 3.0, 4.0, 5.0];
    assert CalculateMarker(m, pos, 1, -1) == Some(1.0 / 3.0);
    assert m' == [1.0, 13.0 / 9.0, 3.0, 4.0, 5.0];
    assert pos[1 := pos[1] + (-1) as real] == pos';
    assert AdjustMarker(m, pos, des, 1) == (m', pos');
    // markers 2 and 3 have no room above
    assert Direction(pos', des, 2) == 0 && Direction(pos', des, 3) == 0;
  }

  lemma CrossingStep8()
    ensures Add(Crossing(7), 1.0) == Crossing(8)
  {
    var st := Crossing(7);
    assert Bucket(st.q, 1.0) == 1;
    assert st.pos[1 := st.pos[1] + 1.0] == [1.0, 4.0, 3.0, 4.0, 5.0];
    CrossingAdvance(8);
    CrossingAdjust8();
  }

  lemma CrossingAdjust9()
    ensures AdjustMarkers([1.0, 13.0 / 9.0, 3.0, 4.0, 5.0], [1.0, 4.0, 3.0, 4.0, 5.0], [1.0, 3.0, 5.0, 7.0, 9.0])
         == ([1.0, 35.0 / 27.0, 3.0, 4.0, 5.0], [1.0, 3.0, 3.0, 4.0, 5.0])
  {
    var m, pos, des := [1.0, 13.0 / 9.0, 3.0, 4.0, 5.0], [1.0, 4.0, 3.0, 4.0, 5.0], [1.0, 3.0, 5.0, 7.0, 9.0];
    // marker 1 moves down: the parabolic candidate leaves (m[0], m[2]), the linear one is used
    assert Direction(pos, des, 1) == -1;
    assert m[1] + -1.0 / (pos[2] - pos[0]) * ((m[2] - m[1]) * (pos[1] - pos[0] + -1.0)
                                              + (m[1] - m[0]) * (pos[2] - pos[1] - -1.0)) == -1.0 / 9.0 by {
      assert (m[2] - m[1]) * (pos[1] - pos[0] + -1.0) == 28.0 / 9.0;
      assert (m[1] - m[0]) * (pos[2] - pos[1] - -1.0) == 0.0;
      assert -1.0 / (pos[2] - pos[0]) == -0.5;
    }
    assert Parabolic(m, pos, 1, -1.0) == Some(-1.0 / 9.0);
    assert Linear(m, pos, 1, -1) == 35.0 / 27.0;
    var m', pos' := m[1 := 35.0 / 27.0], [1.0, 3.0, 3.0, 4.0, 5.0];
    assert CalculateMarker(m, pos, 1, -1) == Some(-1.0 / 9.0);
    assert m' == [1.0, 35.0 / 27.0, 3.0, 4.0, 5.0];
    assert pos[1 := pos[1] + (-1) as real] == pos';
    assert AdjustMarker(m, pos, des, 1) == (m', pos');
    // markers 2 and 3 have no room above
    assert Direction(pos', des, 2) == 0 && Direction(pos', des, 3) == 0;
  }

  lemma CrossingStep9()
    ensures Add(Crossing(8), 1.0) == Crossing(9)
  {
    var st := Crossing(8);
    assert Bucket(st.q, 1.0) == 1;
    assert st.pos[1 := st.pos[1] + 1.0] == [1.0, 4.0, 3.0, 4.0, 5.0];
    CrossingAdvance(9);
    CrossingAdjust9();
  }

  lemma CrossingAdjust10()
    ensures AdjustMarkers([1.0, 35.0 / 27.0, 3.0, 4.0, 5.0], [1.0, 4.0, 3.0, 4.0, 5.0], [1.0, 3.25, 5.5, 7.75, 10.0])
         == ([1.0, 35.0 / 27.0, 3.0, 4.0, 5.0], [1.0, 4.0, 3.0, 4.0, 5.0])
  {
  }

  lemma CrossingStep10()
    ensures Add(Crossing(9), 1.0) == Crossing(10)
  {
    var st := Crossing(9);
    assert Bucket(st.q, 1.0) == 1;
    assert st.pos[1 := st.pos[1] + 1.0] == [1.0, 4.0, 3.0, 4.0, 5.0];
    CrossingAdvance(10);
    CrossingAdjust10();
  }

  lemma CrossingAdvance(k: int)
    requires 6 <= k <= 10
    ensures Advance(Crossing(k - 1).des, Increments(0.5)) == Crossing(k).des
  {
  }

  /** The last sample is the last `Add`. */
  lemma EstimateLast(p: real, xs: seq<real>, s: real)
    requires 0.0 <= p <= 1.0
    ensures Estimate(p, xs + [s]) == Add(Estimate(p, xs), s)
  {
    assert (xs + [s])[..|xs|] == xs;
  }

  /** Ten samples are enough for position 1 to overtake position 2: with
      p = 1/2, the samples 1, 2, 3, 4, 5 followed by five samples equal to 1
      leave position 1 at rank 4 and position 2 at rank 3.
      The warm-up samples come in as the parameter `warm`, fixed by the
      requires, so that each sample count is `warm` plus a short literal and
      each step links to the next through `EstimateLast` without the solver
      unfolding one long literal sequence. */
  lemma PositionsMayCross(warm: seq<real>)
    requires warm == [1.0, 2.0, 3.0, 4.0, 5.0]
    ensures Estimate(0.5, warm + [1.0, 1.0, 1.0, 1.0, 1.0]).pos[1] == 4.0
    ensures Estimate(0.5, warm + [1.0, 1.0, 1.0, 1.0, 1.0]).pos[2] == 3.0
  {
    CrossingRun10(warm);
  }

  /** `CrossingRun6` .. `CrossingRun10`: the samples 1, 2, 3, 4, 5 and then
      `k` - 5 samples equal to 1 lead to `Crossing(k)`, one sample at a time;
      `warm` is a parameter for the reason given at `PositionsMayCross`. */
  lemma CrossingRun6(warm: seq<real>)
    requires warm == [1.0, 2.0, 3.0, 4.0, 5.0]
    ensures Estimate(0.5, warm + [1.0]) == Crossing(6)
  {
    CrossingWarmUp(warm);
    EstimateLast(0.5, warm, 1.0);
    CrossingStep6();
  }

  lemma CrossingRun7(warm: seq<real>)
    requires warm == [1.0, 2.0, 3.0, 4.0, 5.0]
    ensures Estimate(0.5, warm + [1.0, 1.0]) == Crossing(7)
  {
    CrossingRun6(warm);
    EstimateLast(0.5, warm + [1.0], 1.0);
    CrossingStep7();
    assert warm + [1.0] + [1.0] == warm + [1.0, 1.0];
  }

  lemma CrossingRun8(warm: seq<real>)
    requires warm == [1.0, 2.0, 3.0, 4.0, 5.0]
    ensures Estimate(0.5, warm + [1.0, 1.0, 1.0]) == Crossing(8)
  {
    CrossingRun7(warm);
    EstimateLast(0.5, warm + [1.0, 1.0], 1.0);
    CrossingStep8();
    assert warm + [1.0, 1.0] + [1.0] == warm + [1.0, 1.0, 1.0];
  }

  lemma CrossingRun9(warm: seq<real>)
    requires warm == [1.0, 2.0, 3.0, 4.0, 5.0]
    ensures Estimate(0.5, warm + [1.0, 1.0, 1.0, 1.0]) == Crossing(9)
  {
    CrossingRun8(warm);
    EstimateLast(0.5, warm + [1.0, 1.0, 1.0], 1.0);
    CrossingStep9();
    assert warm + [1.0, 1.0, 1.0] + [1.0] == warm + [1.0, 1.0, 1.0, 1.0];
  }

  lemma CrossingRun10(warm: seq<real>)
    requires warm == [1.0, 2.0, 3.0, 4.0, 5.0]
    ensures Estimate(0.5, warm + [1.0, 1.0, 1.0, 1.0, 1.0]) == Crossing(10)
  {
    CrossingRun9(warm);
    EstimateLast(0.5, warm + [1.0, 1.0, 1.0, 1.0], 1.0);
    CrossingStep10();
    assert warm + [1.0, 1.0, 1.0, 1.0] + [1.0] == warm + [1.0, 1.0, 1.0, 1.0, 1.0];
  }

  /** The state `Crossing(5)` is where the samples 1, 2, 3, 4, 5 lead. */
  lemma CrossingWarmUp(warm: seq<real>)
    requires warm == [1.0, 2.0, 3.0, 4.0, 5.0]
    ensures Estimate(0.5, warm) == Crossing(5)
  {
    RunInvariant(0.5, warm);
    AfterOneToFive(0.5, Estimate(0.5, warm));
  }
}
