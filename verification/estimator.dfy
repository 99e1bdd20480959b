/**
 The P² streaming-quantile estimator of QuantileEstimator/QuantileEstimator.cs.

 The estimator is an immutable `State`; every public operation of the class is a
 pure function from a state to a new state. The five scalar fields of each kind
 (`Q0..Q4`, `pos0..pos4`, `desPos0..desPos4`, `inc0..inc4`) are sequences of
 length five indexed 0..4. Doubles are exact reals.
 */
module Estimator {
  import opened Wrappers
  import opened Sorting
  import Interpolation

  /** The exception the constructor throws for a quantile outside [0, 1]. */
  datatype Error = InvalidQuantile

  /** Fields of the estimator: the configured quantile `p`, the sample counter
      `n` (the source's `N`), the markers `q`, their positions `pos`, the
      desired positions `des` and the per-sample increments `inc`. */
  datatype State = State(p: real, n: int, q: seq<real>, pos: seq<real>, des: seq<real>, inc: seq<real>)
  {
    predicate WellFormed()
    {
      |q| == 5 && |pos| == 5 && |des| == 5 && |inc| == 5
    }
  }

  /** The marker ordering invariant: markers 0..4 are non-decreasing. This is
      `Sorted` read as the five chained comparisons of the marker fields, the
      form the step proofs use; `OrderedIffSorted` states that the two agree. */
  predicate Ordered(q: seq<real>)
    requires |q| == 5
  {
    q[0] <= q[1] <= q[2] <= q[3] <= q[4]
  }

  /** Five ascending values are ordered, and conversely. */
  lemma OrderedIffSorted(q: seq<real>)
    requires |q| == 5
    ensures Ordered(q) <==> Sorted(q)
  {
  }

  /** Ranks 1..5, the initial value of both the positions and the desired positions. */
  const InitialRanks: seq<real> := [1.0, 2.0, 3.0, 4.0, 5.0]

  /** `SetIncrements`: the middle marker tracks `p`, the outer two the minimum
      and maximum, and the other two the midpoints between them. */
  function Increments(p: real): (inc: seq<real>)
    ensures |inc| == 5
    ensures inc[0] == 0.0 && inc[2] == p && inc[4] == 1.0
    ensures inc[1] == (inc[0] + inc[2]) / 2.0 && inc[3] == (inc[2] + inc[4]) / 2.0
    ensures 0.0 <= p <= 1.0 ==> forall i, j :: 0 <= i < j < 5 ==> 0.0 <= inc[i] <= inc[j] <= 1.0
  {
    [0.0, p / 2.0, p, (1.0 + p) / 2.0, 1.0]
  }

  /** The constructor: rejects a quantile outside [0, 1]; otherwise no samples,
      all markers at the default 0, positions and desired positions at ranks 1..5. */
  function Create(p: real): (r: Result<State, Error>)
    ensures r.Failure? <==> p < 0.0 || p > 1.0
    ensures r.Success? ==>
      && r.value.WellFormed()
      && r.value.p == p && r.value.n == 0
      && r.value.inc == Increments(p)
      && (forall i :: 0 <= i < 5 ==> r.value.q[i] == 0.0)
      && (forall i :: 0 <= i < 5 ==> r.value.pos[i] == r.value.des[i] == (i + 1) as real)
  {
    if p < 0.0 || p > 1.0 then Failure(InvalidQuantile)
    else Success(State(p, 0, [0.0, 0.0, 0.0, 0.0, 0.0], InitialRanks, InitialRanks, Increments(p)))
  }

  /** The bucket of the classification chain for a sample that is not a new
      minimum: the first interior marker strictly above the sample, or 4 when
      none of markers 1..3 is. */
  function Bucket(q: seq<real>, s: real): (k: int)
    requires |q| == 5 && q[0] <= s
    ensures 1 <= k <= 4
    ensures forall j :: 0 <= j < k ==> q[j] <= s
    ensures k < 4 ==> s < q[k]
  {
    if s < q[1] then 1 else if s < q[2] then 2 else if s < q[3] then 3 else 4
  }

  /** The classification step of `UpdateMarkers`: a new minimum replaces marker 0
      and moves no position; any other sample bumps exactly the position of the
      bucket it falls in. Marker 4 is never raised. */
  function Classify(q: seq<real>, pos: seq<real>, s: real): (r: (seq<real>, seq<real>))
    requires |q| == 5 && |pos| == 5
    ensures s < q[0] ==> r.0 == q[0 := s] && r.1 == pos
    ensures q[0] <= s ==> r.0 == q && r.1 == pos[Bucket(q, s) := pos[Bucket(q, s)] + 1.0]
  {
    if s < q[0] then (q[0 := s], pos)
    else if s < q[1] then (q, pos[1 := pos[1] + 1.0])
    else if s < q[2] then (q, pos[2 := pos[2] + 1.0])
    else if s < q[3] then (q, pos[3 := pos[3] + 1.0])
    else (q, pos[4 := pos[4] + 1.0])
  }

  /** Every desired position advances by its own increment. */
  function Advance(des: seq<real>, inc: seq<real>): (r: seq<real>)
    requires |des| == 5 && |inc| == 5
    ensures |r| == 5
    ensures forall i :: 0 <= i < 5 ==> r[i] - des[i] == inc[i]
  {
    seq(5, i requires 0 <= i < 5 => des[i] + inc[i])
  }

  /** Whether interior marker `i` has room to move one rank in direction `dir`:
      its neighbour on that side is more than one rank away. */
  predicate HasRoom(pos: seq<real>, i: int, dir: int)
    requires |pos| == 5 && 1 <= i <= 3 && (dir == 1 || dir == -1)
  {
    if dir == 1 then pos[i + 1] > pos[i] + 1.0 else pos[i - 1] < pos[i] - 1.0
  }

  /** The direction `Math.Sign(delta)` marker `i` moves in this round, or 0 when
      it stays: it moves when it is at least one rank off its desired position
      and has room on that side. */
  function Direction(pos: seq<real>, des: seq<real>, i: int): (dir: int)
    requires |pos| == 5 && |des| == 5 && 1 <= i <= 3
    ensures -1 <= dir <= 1
    ensures dir == 1 <==> des[i] - pos[i] >= 1.0 && HasRoom(pos, i, 1)
    ensures dir == -1 <==> des[i] - pos[i] <= -1.0 && HasRoom(pos, i, -1)
  {
    var delta := des[i] - pos[i];
    if delta >= 1.0 && pos[i + 1] > pos[i] + 1.0 then 1
    else if delta <= -1.0 && pos[i - 1] < pos[i] - 1.0 then -1
    else 0
  }

  /** The linear candidate: marker `i` moved toward its neighbour in direction
      `dir` by the fraction one over their rank gap. */
  function Linear(m: seq<real>, pos: seq<real>, i: int, dir: int): (v: real)
    requires |m| == 5 && |pos| == 5 && 1 <= i <= 3 && (dir == 1 || dir == -1)
    requires HasRoom(pos, i, dir)
    ensures m[i] <= m[i + dir] ==> m[i] <= v <= m[i + dir]
    ensures m[i + dir] <= m[i] ==> m[i + dir] <= v <= m[i]
    ensures m[i] != m[i + dir] ==> v != m[i] && v != m[i + dir]
  {
    var d := dir as real;
    var gap := pos[i + dir] - pos[i];
    var v := m[i] + d * (m[i + dir] - m[i]) / gap;
    LinearIsFraction(m[i], m[i + dir], d, gap);
    v
  }

  /** `a + d*(b-a)/gap` with `d*gap > 1` is `a + (b-a)*t` for some `t` in (0, 1). */
  lemma LinearIsFraction(a: real, b: real, d: real, gap: real)
    requires d == 1.0 || d == -1.0
    requires d * gap > 1.0
    ensures a <= b ==> a <= a + d * (b - a) / gap <= b
    ensures b <= a ==> b <= a + d * (b - a) / gap <= a
    ensures a != b ==> a + d * (b - a) / gap != a && a + d * (b - a) / gap != b
  {
    var g := d * gap;
    var t := 1.0 / g;
    assert d * (b - a) / gap == (b - a) * t by {
      assert d * d == 1.0;
      assert gap == d * g;
    }
    assert 0.0 < t < 1.0;
    Interpolation.Between(a, b, t);
  }

  /** The parabolic candidate as the code computes it, undefined when the
      outer neighbours share a rank (the double division then yields an
      infinity or NaN, which never passes the strict bounds test). */
  function Parabolic(m: seq<real>, pos: seq<real>, i: int, d: real): (r: Option<real>)
    requires |m| == 5 && |pos| == 5 && 1 <= i <= 3
    ensures r.None? <==> pos[i + 1] == pos[i - 1]
  {
    var span := pos[i + 1] - pos[i - 1];
    if span == 0.0 then None
    else Some(m[i] + d / span * ((m[i + 1] - m[i]) * (pos[i] - pos[i - 1] + d)
                                 + (m[i] - m[i - 1]) * (pos[i + 1] - pos[i] - d)))
  }

  /** `CalculateMarker`, called with the current marker as its `parabolic`
      argument: the parabolic candidate when marker `i` lies strictly between its
      neighbours, the linear one otherwise. */
  function CalculateMarker(m: seq<real>, pos: seq<real>, i: int, dir: int): (r: Option<real>)
    requires |m| == 5 && |pos| == 5 && 1 <= i <= 3 && (dir == 1 || dir == -1)
    requires HasRoom(pos, i, dir)
    // the parabolic formula is tried only for a marker strictly between its
    // neighbours, and it fails only when the outer neighbours share a rank
    ensures r.None? <==> m[i - 1] < m[i] < m[i + 1] && pos[i + 1] == pos[i - 1]
    // any other marker gets a value on the segment toward its neighbour
    ensures !(m[i - 1] < m[i] < m[i + 1]) ==>
              && r.Some?
              && (m[i] <= m[i + dir] ==> m[i] <= r.value <= m[i + dir])
              && (m[i + dir] <= m[i] ==> m[i + dir] <= r.value <= m[i])
  {
    if m[i - 1] < m[i] < m[i + 1] then Parabolic(m, pos, i, dir as real)
    else Some(Linear(m, pos, i, dir))
  }

  /** One iteration of the loop of `AdjustMarkers` for interior marker `i`. */
  function AdjustMarker(m: seq<real>, pos: seq<real>, des: seq<real>, i: int): (r: (seq<real>, seq<real>))
    requires |m| == 5 && |pos| == 5 && |des| == 5 && 1 <= i <= 3
    ensures |r.0| == 5 && |r.1| == 5
    // only marker i and its position may change
    ensures r.0 == m[i := r.0[i]] && r.1 == pos[i := r.1[i]]
    // it moves up exactly when it is a rank or more below its desired rank and has room above
    ensures r.1[i] == pos[i] + 1.0 <==> des[i] - pos[i] >= 1.0 && pos[i + 1] > pos[i] + 1.0
    // it moves down exactly when it is a rank or more above its desired rank and has room below
    ensures r.1[i] == pos[i] - 1.0 <==> des[i] - pos[i] <= -1.0 && pos[i - 1] < pos[i] - 1.0
    ensures r.1[i] == pos[i] + 1.0 || r.1[i] == pos[i] - 1.0 || r == (m, pos)
    // a moved marker stays strictly on its side of the neighbour it moved toward
    ensures r.1[i] > pos[i] ==> r.1[i] < pos[i + 1]
    ensures r.1[i] < pos[i] ==> r.1[i] > pos[i - 1]
    // the new value never leaves the interval its neighbours span
    ensures Ordered(m) ==> Ordered(r.0)
  {
    var dir := Direction(pos, des, i);
    if dir == 0 then (m, pos)
    else
      var candidate := CalculateMarker(m, pos, i, dir);
      var v :=
        if candidate.Some? && m[i - 1] < candidate.value < m[i + 1] then candidate.value
        else Linear(m, pos, i, dir);
      (m[i := v], pos[i := pos[i] + dir as real])
  }

  /** The current marker is what the loop passes as the `parabolic` argument of
      `CalculateMarker`, so a marker that is not strictly between its neighbours
      always moves linearly, whatever the parabolic formula would give. */
  lemma OutsideMarkerMovesLinearly(m: seq<real>, pos: seq<real>, des: seq<real>, i: int)
    requires |m| == 5 && |pos| == 5 && |des| == 5 && 1 <= i <= 3
    requires Direction(pos, des, i) != 0 && !(m[i - 1] < m[i] < m[i + 1])
    ensures AdjustMarker(m, pos, des, i).0[i] == Linear(m, pos, i, Direction(pos, des, i))
  {
  }

  /** The value a moving marker takes: the parabolic candidate exactly when the
      marker and the candidate both lie strictly between the neighbours, the
      linear one otherwise. */
  lemma AdjustedValue(m: seq<real>, pos: seq<real>, des: seq<real>, i: int)
    requires |m| == 5 && |pos| == 5 && |des| == 5 && 1 <= i <= 3
    requires Direction(pos, des, i) != 0
    // an admissible parabolic candidate for a marker inside its bracket is taken
    ensures var candidate := Parabolic(m, pos, i, Direction(pos, des, i) as real);
            m[i - 1] < m[i] < m[i + 1] && candidate.Some? && m[i - 1] < candidate.value < m[i + 1] ==>
              AdjustMarker(m, pos, des, i).0[i] == candidate.value
    // any value other than the linear one is such a candidate
    ensures var v := AdjustMarker(m, pos, des, i).0[i];
            v != Linear(m, pos, i, Direction(pos, des, i)) ==>
              && m[i - 1] < m[i] < m[i + 1] && m[i - 1] < v < m[i + 1]
              && Parabolic(m, pos, i, Direction(pos, des, i) as real) == Some(v)
  {
  }

  /** A position moves by at most one rank per step. */
  predicate WithinOne(before: real, after: real) {
    after == before - 1.0 || after == before || after == before + 1.0
  }

  /** The move rule of the adjustment loop for marker `i`, from the positions
      `before` the loop to the positions `after` it: the room below is judged
      against the place marker `i - 1` has already moved to, the room above
      against the place marker `i + 1` has not yet left. */
  predicate FollowsRule(before: seq<real>, des: seq<real>, after: seq<real>, i: int)
    requires |before| == 5 && |des| == 5 && |after| == 5 && 1 <= i <= 3
  {
    && WithinOne(before[i], after[i])
    && (after[i] == before[i] + 1.0 <==> des[i] - before[i] >= 1.0 && before[i + 1] > before[i] + 1.0)
    && (after[i] == before[i] - 1.0 <==> des[i] - before[i] <= -1.0 && after[i - 1] < before[i] - 1.0)
  }

  /** A marker whose position did not move kept its value. */
  predicate KeptUnlessMoved(m: seq<real>, pos: seq<real>, m': seq<real>, pos': seq<real>, i: int)
    requires |m| == 5 && |pos| == 5 && |m'| == 5 && |pos'| == 5 && 0 <= i < 5
  {
    pos'[i] == pos[i] ==> m'[i] == m[i]
  }

  /** The local array as marker `i` sees it when its turn comes: the entries
      before `i` as the loop has left them, the others as they were before the
      loop (later iterations never write them back). */
  function Seen(before: seq<real>, after: seq<real>, i: int): (s: seq<real>)
    requires |before| == 5 && |after| == 5 && 1 <= i <= 3
    ensures |s| == 5
  {
    after[..i] + before[i..]
  }

  /** The seen array is the one that agrees with `after` below `i` and with
      `before` from `i` on. */
  lemma SeenIs(before: seq<real>, after: seq<real>, i: int, s: seq<real>)
    requires |before| == 5 && |after| == 5 && 1 <= i <= 3 && |s| == 5
    requires forall k | 0 <= k < i :: s[k] == after[k]
    requires forall k | i <= k < 5 :: s[k] == before[k]
    ensures Seen(before, after, i) == s
  {
  }

  /** The value rule of the adjustment loop for marker `i`, from markers `m`
      and positions `pos` before the loop to `m'` and `pos'` after it, judged on
      the arrays the marker sees: when it moves, it takes the parabolic
      candidate if both it and the candidate lie strictly between its (already
      updated) lower and (not yet updated) upper neighbour, and the linear
      value otherwise. */
  predicate ValueRule(m: seq<real>, pos: seq<real>, des: seq<real>, m': seq<real>, pos': seq<real>, i: int)
    requires |m| == 5 && |pos| == 5 && |des| == 5 && |m'| == 5 && |pos'| == 5 && 1 <= i <= 3
  {
    var sm, sp := Seen(m, m', i), Seen(pos, pos', i);
    var dir := Direction(sp, des, i);
    dir != 0 ==>
      var candidate := Parabolic(sm, sp, i, dir as real);
      && (sm[i - 1] < sm[i] < sm[i + 1] && candidate.Some? && sm[i - 1] < candidate.value < sm[i + 1] ==>
            m'[i] == candidate.value)
      && (m'[i] != Linear(sm, sp, i, dir) ==>
            sm[i - 1] < sm[i] < sm[i + 1] && sm[i - 1] < m'[i] < sm[i + 1] && candidate == Some(m'[i]))
  }

  /** One iteration meets the value rule: if marker `i` sees `sm` and `sp`
      and ends with the value its own `AdjustMarker` step gives it. */
  lemma StepFollowsValueRule(m: seq<real>, pos: seq<real>, des: seq<real>, m': seq<real>, pos': seq<real>,
                             sm: seq<real>, sp: seq<real>, i: int)
    requires |m| == 5 && |pos| == 5 && |des| == 5 && |m'| == 5 && |pos'| == 5 && 1 <= i <= 3
    requires Seen(m, m', i) == sm && Seen(pos, pos', i) == sp
    requires m'[i] == AdjustMarker(sm, sp, des, i).0[i]
    ensures ValueRule(m, pos, des, m', pos', i)
  {
    if Direction(sp, des, i) != 0 {
      AdjustedValue(sm, sp, des, i);
    }
  }

  /** The three iterations of the loop give each moved marker the value the
      value rule prescribes. */
  lemma StepsFollowValueRule(m: seq<real>, pos: seq<real>, des: seq<real>)
    requires |m| == 5 && |pos| == 5 && |des| == 5
    ensures var a := AdjustMarker(m, pos, des, 1);
            var b := AdjustMarker(a.0, a.1, des, 2);
            var c := AdjustMarker(b.0, b.1, des, 3);
            forall i | 1 <= i <= 3 :: ValueRule(m, pos, des, c.0, c.1, i)
  {
    var a := AdjustMarker(m, pos, des, 1);
    var b := AdjustMarker(a.0, a.1, des, 2);
    var c := AdjustMarker(b.0, b.1, des, 3);
    SeenIs(m, c.0, 1, m);
    SeenIs(pos, c.1, 1, pos);
    StepFollowsValueRule(m, pos, des, c.0, c.1, m, pos, 1);
    SeenIs(m, c.0, 2, a.0);
    SeenIs(pos, c.1, 2, a.1);
    StepFollowsValueRule(m, pos, des, c.0, c.1, a.0, a.1, 2);
    SeenIs(m, c.0, 3, b.0);
    SeenIs(pos, c.1, 3, b.1);
    StepFollowsValueRule(m, pos, des, c.0, c.1, b.0, b.1, 3);
  }

  /** `AdjustMarkers`: markers 1, 2 and 3 in turn, each seeing the values and
      positions its predecessor has just written. */
  function AdjustMarkers(m: seq<real>, pos: seq<real>, des: seq<real>): (r: (seq<real>, seq<real>))
    requires |m| == 5 && |pos| == 5 && |des| == 5
    ensures |r.0| == 5 && |r.1| == 5
    ensures r.0[0] == m[0] && r.0[4] == m[4]
    ensures r.1[0] == pos[0] && r.1[4] == pos[4]
    // markers 1, 2 and 3 move in that order, each by the rule of one iteration
    ensures FollowsRule(pos, des, r.1, 1) && FollowsRule(pos, des, r.1, 2) && FollowsRule(pos, des, r.1, 3)
    ensures KeptUnlessMoved(m, pos, r.0, r.1, 1) && KeptUnlessMoved(m, pos, r.0, r.1, 2)
         && KeptUnlessMoved(m, pos, r.0, r.1, 3)
    // a marker that moves takes the value the rule gives on the arrays it sees
    ensures forall i | 1 <= i <= 3 :: ValueRule(m, pos, des, r.0, r.1, i)
    ensures Ordered(m) ==> Ordered(r.0)
  {
    StepsFollowValueRule(m, pos, des);
    var a := AdjustMarker(m, pos, des, 1);
    var b := AdjustMarker(a.0, a.1, des, 2);
    AdjustMarker(b.0, b.1, des, 3)
  }

  /** What one update step does to the state `st` for the sample `s`, giving
      `r` (the counter aside): the desired positions advance; a new minimum
      lowers marker 0; marker 4 keeps its value and its position grows by one
      exactly when the sample is below none of markers 0..3; markers 1..3 then
      follow the move and value rules from the markers and positions after
      classification, and a marker that does not move keeps its value. */
  predicate UpdatedBy(st: State, s: real, r: State)
    requires st.WellFormed() && r.WellFormed()
  {
    var (classifiedQ, classified) := Classify(st.q, st.pos, s);
    && r.p == st.p && r.inc == st.inc
    && r.des == Advance(st.des, st.inc)
    && r.q[0] == (if s < st.q[0] then s else st.q[0])
    && r.q[4] == st.q[4]
    && r.pos[0] == st.pos[0]
    && r.pos[4] == st.pos[4] + (if st.q[0] <= s && st.q[1] <= s && st.q[2] <= s && st.q[3] <= s then 1.0 else 0.0)
    && FollowsRule(classified, r.des, r.pos, 1)
    && FollowsRule(classified, r.des, r.pos, 2)
    && FollowsRule(classified, r.des, r.pos, 3)
    && KeptUnlessMoved(st.q, classified, r.q, r.pos, 1)
    && KeptUnlessMoved(st.q, classified, r.q, r.pos, 2)
    && KeptUnlessMoved(st.q, classified, r.q, r.pos, 3)
    && (forall i | 1 <= i <= 3 :: ValueRule(classifiedQ, classified, r.des, r.q, r.pos, i))
    && (Ordered(st.q) ==> Ordered(r.q))
  }

  /** The loop works in place: with positions 1, 4, 5, 8, 9 and desired ranks
      1, 2, 3, 8, 9, marker 2 has no room below before the loop, yet it moves
      down because marker 1 has just moved out of its way. */
  lemma AdjustmentIsInPlace(m: seq<real>)
    requires |m| == 5
    ensures !HasRoom([1.0, 4.0, 5.0, 8.0, 9.0], 2, -1)
    ensures AdjustMarkers(m, [1.0, 4.0, 5.0, 8.0, 9.0], [1.0, 2.0, 3.0, 8.0, 9.0]).1
         == [1.0, 3.0, 4.0, 8.0, 9.0]
  {
    var pos, des := [1.0, 4.0, 5.0, 8.0, 9.0], [1.0, 2.0, 3.0, 8.0, 9.0];
    var r := AdjustMarkers(m, pos, des);
    assert r.1[1] == 3.0;
    assert r.1[2] == 4.0;
  }

  /** A parabolic candidate that lands exactly on a neighbour is refused: with
      markers 1, 2, 3, 4, 5 at positions 1, 2, 4, 6, 8 and desired ranks
      1, 4, 4, 6, 8, marker 1 moves up, its candidate is 3 (marker 2's value),
      and it takes the linear value 2.5 instead. */
  lemma CandidateOnNeighbourIsRefused()
    ensures Parabolic([1.0, 2.0, 3.0, 4.0, 5.0], [1.0, 2.0, 4.0, 6.0, 8.0], 1, 1.0) == Some(3.0)
    ensures AdjustMarkers([1.0, 2.0, 3.0, 4.0, 5.0], [1.0, 2.0, 4.0, 6.0, 8.0], [1.0, 4.0, 4.0, 6.0, 8.0]).0[1]
         == 2.5
  {
    var m, pos, des := [1.0, 2.0, 3.0, 4.0, 5.0], [1.0, 2.0, 4.0, 6.0, 8.0], [1.0, 4.0, 4.0, 6.0, 8.0];
    assert Direction(pos, des, 1) == 1;
    assert Linear(m, pos, 1, 1) == 2.5;
  }

  /** `UpdateMarkers`: classification, desired-position advance, adjustment. */
  function UpdateMarkers(st: State, s: real): (r: State)
    requires st.WellFormed()
    ensures r.WellFormed()
    ensures r.n == st.n
    ensures UpdatedBy(st, s, r)
  {
    var (q1, pos1) := Classify(st.q, st.pos, s);
    assert Ordered(st.q) ==> Ordered(q1);
    var des1 := Advance(st.des, st.inc);
    var (q2, pos2) := AdjustMarkers(q1, pos1, des1);
    st.(q := q2, pos := pos2, des := des1)
  }

  /** The body of `Add` once the counter has been incremented: samples 1..5
      fill markers 0..4 (the fifth also sorts them); later samples update the
      markers; a counter outside 1..5 that is not above 5 matches no case. */
  function Dispatch(st: State, s: real): (r: State)
    requires st.WellFormed()
    ensures r.WellFormed()
    ensures r.p == st.p && r.n == st.n && r.inc == st.inc
    // a counter that is not positive matches no case: the sample is dropped
    ensures st.n <= 0 ==> r == st
  {
    if st.n <= 5 then
      if 1 <= st.n <= 4 then st.(q := st.q[st.n - 1 := s])
      else if st.n == 5 then st.(q := Sort(st.q[4 := s]))
      else st
    else UpdateMarkers(st, s)
  }

  /** `Add`, with the sample counter unbounded (see `Add32` for the 32-bit counter). */
  function Add(st: State, s: real): (r: State)
    requires st.WellFormed()
    ensures r.WellFormed()
    ensures r.p == st.p && r.n == st.n + 1 && r.inc == st.inc
    // warm-up: the sample is stored verbatim and nothing else changes
    ensures 0 <= st.n < 4 ==> r == st.(n := st.n + 1, q := st.q[st.n := s])
    // the fifth sample: the markers become the sorted warm-up samples
    ensures st.n == 4 ==>
      && r.pos == st.pos && r.des == st.des
      && Ordered(r.q) && multiset(r.q) == multiset(st.q[4 := s])
    // afterwards: one update step
    ensures st.n >= 5 ==> UpdatedBy(st, s, r)
  {
    var r := Dispatch(st.(n := st.n + 1), s);
    OrderedIffSorted(r.q);
    r
  }

  /** The query: the desired rank of the middle marker. */
  function GetQuantile(st: State): (r: real)
    requires st.WellFormed()
  {
    st.des[2]
  }

  /** Feeds a sequence of samples, in order. */
  function Run(st: State, xs: seq<real>): (r: State)
    requires st.WellFormed()
    ensures r.WellFormed()
    ensures r.p == st.p && r.inc == st.inc && r.n == st.n + |xs|
    decreases |xs|
  {
    if xs == [] then st
    else Add(Run(st, xs[..|xs| - 1]), xs[|xs| - 1])
  }

  /* The source keeps the counter in a C# `int`, whose `++` wraps from
     2147483647 to -2147483648. */

  const MaxInt32: int := 0x7FFF_FFFF
  const MinInt32: int := -0x8000_0000

  /** `Add` exactly as written, with the 32-bit counter: it agrees with `Add`
      until the counter overflows, and the sample that overflows it is dropped. */
  function Add32(st: State, s: real): (r: State)
    requires st.WellFormed() && MinInt32 <= st.n <= MaxInt32
    ensures r.WellFormed() && MinInt32 <= r.n <= MaxInt32
    ensures st.n < MaxInt32 ==> r == Add(st, s)
    ensures st.n == MaxInt32 ==> r == st.(n := MinInt32)
  {
    var next := if st.n == MaxInt32 then MinInt32 else st.n + 1;
    Dispatch(st.(n := next), s)
  }

  /** The sample that overflows the counter is lost, while the unbounded
      counter advances the top desired rank by one as every later sample does. */
  lemma OverflowDropsSample(st: State, s: real)
    requires st.WellFormed() && st.n == MaxInt32 && st.inc == Increments(st.p)
    ensures Add32(st, s).n < 0
    ensures Add32(st, s).q == st.q && Add32(st, s).pos == st.pos && Add32(st, s).des == st.des
    ensures Add(st, s).des[4] == st.des[4] + 1.0
  {
  }

  /** Once wrapped, the counter stays negative for 2^31 samples, and every one
      of them is dropped: only the counter moves. The last of them brings it
      back to 0. */
  lemma NegativeCounterDropsSamples(st: State, s: real)
    requires st.WellFormed() && MinInt32 <= st.n < 0
    ensures Add32(st, s) == st.(n := st.n + 1)
  {
  }

  /** Back at 0, the counter makes the next five samples a second warm-up:
      they overwrite markers 0..3 and re-sort all five, while the positions
      and desired positions keep the values the stream had reached. */
  lemma WrappedCounterRestartsWarmUp(st: State, s: real)
    requires st.WellFormed() && 0 <= st.n <= 4
    ensures Add32(st, s).pos == st.pos && Add32(st, s).des == st.des
    ensures st.n < 4 ==> Add32(st, s).q == st.q[st.n := s]
    ensures st.n == 4 ==> Ordered(Add32(st, s).q) && multiset(Add32(st, s).q) == multiset(st.q[4 := s])
  {
  }
}
