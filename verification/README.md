# P² streaming-quantile estimator

A Dafny model of the `QuantileEstimator` class in
`QuantileEstimator/QuantileEstimator.cs` and of the `GetExactQuantile`
reference helper in `QuantileEstimator/Program.cs`. Every property below is
proved by the Dafny verifier. None of it comes from running the program.

The estimator tracks one quantile `p` of a stream with five markers. Each
marker has a value (`Q0..Q4`), an actual rank (`pos0..pos4`), a desired rank
(`desPos0..desPos4`) and a per-sample increment (`inc0..inc4`). The first five
samples are stored and then sorted. Each later sample goes through three
steps:

- classification, which either lowers `Q0` or bumps one position;
- a desired-rank advance;
- an adjustment that moves each interior marker at most one rank, by the
  parabolic formula or, as a fallback, the linear one.

## Layout

- `wrappers.dfy`: `Option` and `Result`.
- `sorting.dfy` (`Sorting`): ascending sort and the minimum and maximum of a
  sequence. A sorted permutation is unique, so `Array.Sort` and `OrderBy`
  are both modelled by `Sort`.
- `interpolation.dfy` (`Interpolation`): facts about `a + (b - a) * t`.
- `estimator.dfy` (`Estimator`): the class as an immutable `State` with pure
  step functions:
  - `Create`;
  - `Classify`, `Advance` and `AdjustMarkers`, which together make up `UpdateMarkers`;
  - `Add`;
  - `GetQuantile`.

  The five scalar fields of each kind are sequences of length five.
- `estimator_theorems.dfy` (`EstimatorTheorems`): properties of a fresh
  estimator fed a sequence of samples (`Estimate`):
  - an invariant `Reached` that holds after every sample;
  - closed forms of the desired ranks and of the query;
  - a concrete stream after which positions 1 and 2 have crossed.
- `exact_quantile.dfy` (`ExactQuantile`): the sort-and-interpolate reference.

### Behaviour modelled as the code has it

The model follows the code as written, including where it departs from the
published P² algorithm:

- Classification bumps only the position of the bucket the sample falls in,
  not every position above it. It lowers `Q0` on a new minimum but never
  raises `Q4` on a new maximum.
- No pass clamps the positions, so they need not stay strictly increasing.
  `EstimatorTheorems.PositionsMayCross` exhibits ten samples after which
  `pos1 > pos2`.
- The adjustment loop updates its local arrays in place. Marker `i`
  therefore sees the value and position marker `i - 1` has just written in
  the same round. `Estimator.AdjustmentIsInPlace` exhibits a marker that
  moves only because its predecessor has just moved.
- `CalculateMarker` is called with the current marker as its `parabolic`
  argument. Its guard therefore tests whether the current marker lies
  strictly between its neighbours.
- The parabolic formula at lines 150-152 omits the divisions by the
  neighbour rank gaps that the published P² formula has. It is modelled as
  written.
- The query returns `desPos2`, a rank and not a value. It is 3 before any
  update, and a query before five samples does not fail.
- On the fifth sample the positions and desired positions are not reset.
  They are still at their initial ranks 1..5 at that point.

Doubles are exact reals. A parabolic candidate whose denominator
`pos[i+1] - pos[i-1]` is zero is `None`. The double division would yield an
infinity or NaN, which never passes the strict bounds test at line 117, so
the linear value is used, as it is in the code. The linear denominator is
more than one rank whenever the marker moves.

## Model

| member | source | states |
|---|---|---|
| Estimator.Create | QuantileEstimator/QuantileEstimator.cs:19-38 | construction fails exactly when `p < 0` or `p > 1`; otherwise the counter is 0, the markers are 0, positions and desired positions are both ranks 1..5, and the increments are those of `SetIncrements` |
| Estimator.Increments | QuantileEstimator/QuantileEstimator.cs:33-37 | the outer increments are 0 and 1 and the middle one is `p`; the other two are the midpoints; for `p` in [0, 1] they are non-decreasing and within [0, 1] |
| Estimator.Advance | QuantileEstimator/QuantileEstimator.cs:83-87 | each desired rank grows by exactly its own increment |
| Estimator.Bucket | QuantileEstimator/QuantileEstimator.cs:78-81 | a sample that is not a new minimum lands in the bucket of the first interior marker strictly above it, or in bucket 4 when markers 1..3 are all at or below it |
| Estimator.Classify | QuantileEstimator/QuantileEstimator.cs:77-81 | a sample below `Q0` replaces `Q0` and moves no position; any other sample leaves every marker (so `Q4` too) unchanged and bumps exactly its bucket's position by one, never `pos0` |
| Estimator.Direction | QuantileEstimator/QuantileEstimator.cs:102-111 | a marker moves up exactly when it is at least one rank below its desired rank and its upper neighbour is more than one rank away, and down exactly in the mirror case; otherwise it stays |
| Estimator.Linear | QuantileEstimator/QuantileEstimator.cs:124 | the linear value lies between the marker and its neighbour in the direction of movement, strictly between them when they differ |
| Estimator.Parabolic | QuantileEstimator/QuantileEstimator.cs:150-152 | the parabolic candidate is undefined exactly when the outer neighbours share a rank |
| Estimator.CalculateMarker | QuantileEstimator/QuantileEstimator.cs:145-161 | it yields no value exactly for a marker strictly between its neighbours whose outer neighbours share a rank; a marker not strictly between them gets a value on the segment toward its neighbour in the direction of movement |
| Estimator.OutsideMarkerMovesLinearly | QuantileEstimator/QuantileEstimator.cs:114-124 | because the current marker is passed as the `parabolic` argument, a moving marker that is not strictly between its neighbours always takes the linear value |
| Estimator.AdjustedValue | QuantileEstimator/QuantileEstimator.cs:114-124 | a moving marker strictly inside its bracket takes an admissible parabolic candidate; any value other than the linear one is such a candidate, strictly between the neighbours |
| Estimator.AdjustMarker | QuantileEstimator/QuantileEstimator.cs:99-128 | only marker `i` and its position change; it moves up exactly when it is a rank or more below its desired rank and has room above, and down in the mirror case; a move is exactly one rank and stays strictly on its side of the neighbour it moved toward; ordered markers stay ordered |
| Estimator.StepFollowsValueRule | QuantileEstimator/QuantileEstimator.cs:99-128 | one iteration's value for marker `i`, computed on the arrays it sees, meets the value rule: parabolic candidate when admissible, linear value otherwise |
| Estimator.StepsFollowValueRule | QuantileEstimator/QuantileEstimator.cs:91-143 | over the three in-place iterations, each moved marker's value is the parabolic candidate when both it and the candidate are strictly inside the bracket it sees, and the linear value otherwise |
| Estimator.AdjustMarkers | QuantileEstimator/QuantileEstimator.cs:91-143 | markers and positions 0 and 4 are untouched; markers 1, 2, 3 move in that order, each by at most one rank: up exactly when a rank or more below its desired rank with room above the not-yet-moved successor, down exactly in the mirror case judged against the already-moved predecessor; a marker that does not move keeps its value; a marker that moves takes the admissible parabolic candidate when it and the candidate lie strictly between its neighbours as it sees them (predecessor already adjusted, successor not yet), and otherwise the linear value; ordered markers stay ordered |
| Estimator.AdjustmentIsInPlace | QuantileEstimator/QuantileEstimator.cs:94-127 | with positions 1, 4, 5, 8, 9 and desired ranks 1, 2, 3, 8, 9, marker 2 has no room below before the loop, yet moves down after marker 1 has moved |
| Estimator.CandidateOnNeighbourIsRefused | QuantileEstimator/QuantileEstimator.cs:114-124 | with markers 1..5 at positions 1, 2, 4, 6, 8 and desired ranks 1, 4, 4, 6, 8, marker 1's parabolic candidate is 3, equal to marker 2, so it is refused and the marker takes the linear value 2.5 |
| Estimator.UpdateMarkers | QuantileEstimator/QuantileEstimator.cs:74-89 | each desired rank grows by its increment; `Q0` becomes the smaller of itself and the sample; `Q4` and `pos0` are unchanged; `pos4` grows by one exactly when the sample is below none of `Q0..Q3`; markers 1..3 then follow the adjustment's move rule from the classified positions and the advanced desired ranks, keep their value unless they move, and when they move take the parabolic or linear value by the adjustment's value rule, seen from the classified markers; ordered markers stay ordered |
| Estimator.Dispatch | QuantileEstimator/QuantileEstimator.cs:46-60 | the body of `Add` after the increment keeps the quantile, the counter and the increments; a counter that is zero or negative matches no case and the sample is dropped with the state unchanged |
| Estimator.Add | QuantileEstimator/QuantileEstimator.cs:43-61 | samples 1..4 are stored verbatim in markers 0..3 and nothing else changes; the fifth makes the markers an ordered permutation of the five samples with positions untouched; every later sample makes exactly the update step `UpdateMarkers` states |
| Estimator.Add32 | QuantileEstimator/QuantileEstimator.cs:45-56 | with the 32-bit counter: the same as `Add` until the counter reaches `int.MaxValue`; the next sample wraps it to `int.MinValue` and is dropped |
| Estimator.OverflowDropsSample | QuantileEstimator/QuantileEstimator.cs:45-46 | the sample that wraps the counter leaves markers, positions and desired ranks as they were, while with an unbounded counter the top desired rank would advance by one |
| Estimator.NegativeCounterDropsSamples | QuantileEstimator/QuantileEstimator.cs:46-55 | while the wrapped counter is negative, every sample changes nothing but the counter |
| Estimator.WrappedCounterRestartsWarmUp | QuantileEstimator/QuantileEstimator.cs:45-72 | with the counter back at 0..4, a sample overwrites a marker, or on the fifth re-sorts all five, while positions and desired ranks keep their values |
| Sorting.Sort | QuantileEstimator/QuantileEstimator.cs:65-71 | the result is an ascending permutation of the input |
| Sorting.SortedPermutationUnique | QuantileEstimator/Program.cs:108 | two ascending permutations of the same values are equal, so any sort gives the same sequence |
| EstimatorTheorems.RunInvariant | QuantileEstimator/QuantileEstimator.cs:43-89 | after any samples `xs`: the counter is `|xs|`; each desired rank is its initial rank plus one increment per sample after the fifth; `pos0` is 1 and `pos4` at least 5; the markers are the raw samples during warm-up, then ordered from the running minimum to the largest of the first five |
| EstimatorTheorems.WarmUpSorts | QuantileEstimator/QuantileEstimator.cs:45-72 | after five samples the markers are an ordered permutation of them, with positions and desired ranks at 1..5 |
| EstimatorTheorems.WarmUpExample | QuantileEstimator/QuantileEstimator.cs:63-72 | a fresh estimator fed 5, 3, 1, 4, 2 has markers 1, 2, 3, 4, 5 at positions 1..5 |
| EstimatorTheorems.DesiredClosedForm | QuantileEstimator/QuantileEstimator.cs:83-87 | a fresh estimator fed `N >= 5` samples has `desPos[i] = (i + 1) + (N - 5) * inc[i]` |
| EstimatorTheorems.DesiredEnds | QuantileEstimator/QuantileEstimator.cs:83-87 | a fresh estimator fed `N >= 5` samples has `desPos0 = 1` and `desPos4 = N` |
| EstimatorTheorems.QuantileClosedForm | QuantileEstimator/QuantileEstimator.cs:163-171 | on a fresh estimator fed `N` samples the query is 3 while `N <= 5` and `3 + (N - 5) * p` afterwards |
| EstimatorTheorems.QuantileIgnoresValues | QuantileEstimator/QuantileEstimator.cs:170 | two streams of the same length give the same query result, whatever their values |
| EstimatorTheorems.MarkersAfterWarmUp | QuantileEstimator/QuantileEstimator.cs:77-142 | after five or more samples the markers are ordered, `Q0` is the least sample so far and `Q4` the greatest of the first five, and `pos0` is 1 |
| EstimatorTheorems.LastPositionNeverDecreases | QuantileEstimator/QuantileEstimator.cs:81 | adding a sample never lowers `pos4` |
| EstimatorTheorems.PositionsMayCross | QuantileEstimator/QuantileEstimator.cs:78-127 | with `p = 1/2`, the samples 1, 2, 3, 4, 5 followed by five samples equal to 1 leave `pos1 = 4` above `pos2 = 3` |
| ExactQuantile.GetExactQuantile | QuantileEstimator/Program.cs:106-114 | the list indexer throws exactly for empty data, or for `p` outside [0, 1] when there are two or more values; otherwise the result lies between the least and the greatest value |
| ExactQuantile.Ceiling | QuantileEstimator/Program.cs:111 | the least integer at or above its argument |
| ExactQuantile.At | QuantileEstimator/Program.cs:112-113 | the list indexer succeeds exactly for an index in `[0, count)`, with that element |
| ExactQuantile.AtRank | QuantileEstimator/Program.cs:110-113 | both indices are in range exactly when the rank is in `[0, n - 1]`; a whole rank selects that element, and any other rank gives a value between the elements on either side of it |
| ExactQuantile.Rank | QuantileEstimator/Program.cs:109 | the fractional rank is in `[0, n - 1]` for `p` in [0, 1], below 0 for `p < 0` and above `n - 1` for `p > 1` once there are two values; `p = 0` gives 0 and `p = 1` gives `n - 1` |
| ExactQuantile.RankIsProduct | QuantileEstimator/Program.cs:109 | the fractional rank is `(n - 1) * p` |
| ExactQuantile.OrderStatisticAtItsQuantile | QuantileEstimator/Program.cs:109-112 | at `p = k / (n - 1)` the result is the `k`-th smallest value |
| ExactQuantile.Extremes | QuantileEstimator/Program.cs:109-112 | `p = 0` gives the least value and `p = 1` the greatest |
| ExactQuantile.IgnoresOrder | QuantileEstimator/Program.cs:108 | the result depends only on the multiset of the data, not on their order |
| ExactQuantile.MonotoneInQuantile | QuantileEstimator/Program.cs:109-113 | a larger `p` in [0, 1] never gives a smaller result |
| ExactQuantile.AtRankMonotone | QuantileEstimator/Program.cs:110-113 | a larger rank in range never gives a smaller value |
| Interpolation.Lerp | QuantileEstimator/Program.cs:113 | for a fraction in (0, 1) the interpolant lies between its two end points, whichever is larger |

## Left out

- `Main`, `RunTest` and `RunConvergenceTest` (`Program.cs` lines 5-97) are
  console drivers and statistical experiments. Their accuracy claims are
  empirical, and the model claims no approximation bound.
- `GetLargerAndLessRandomSequence` and the seeded shuffles (`Program.cs`
  lines 69-73 and 99-104) depend on `System.Random`.
- IEEE-754 doubles are modelled as exact reals. Rounding in
  `desPos += inc` and in the interpolations is not modelled, nor are NaN
  and infinite samples. The one place where an infinity matters, a zero
  parabolic denominator, is modelled by `None` as described above.
- The casts `(int)Math.Floor` and `(int)Math.Ceiling` in `GetExactQuantile`
  are exact. A rank too large for an `int` cannot arise for `p` in [0, 1].
  For other `p` the indexer throws in the model, as it does after an
  out-of-range cast.
- `GetExactQuantile` works on a sorted copy and leaves its argument list
  alone. In the model every value is immutable, so this holds without a
  lemma.
- The debug constructor and `GetCurrentMarkers()` that `Program.cs` calls
  (lines 27 and 88) are not defined in `QuantileEstimator.cs` and are not
  modelled. The commented-out `Console.Write` lines in `GetQuantile` are
  not modelled either.
- `Estimator.GetQuantile` carries no contract of its own; the lemmas
  `QuantileClosedForm` and `QuantileIgnoresValues` state what it returns.
- Concurrency is not modelled: the class is single-threaded and
  unsynchronised.

## Findings

| source | as written | input that shows it | evidently intended | confidence | as-written member | corrected member |
|---|---|---|---|---|---|---|
| QuantileEstimator/QuantileEstimator.cs:6 | the sample counter `N` is a C# `int`, and `N++` at line 45 wraps from 2147483647 to -2147483648; the wrapped counter is `<= 5` and matches no `case`, so that sample and the 2^31 samples that take the counter from -2147483648 back to 0 are silently dropped, 2^31 + 1 in all; the next five samples then overwrite and re-sort the markers as a second warm-up, while positions and desired ranks keep their old values | any state with `N = 2147483647`, then one more `Add` | the counter keeps counting (a `long`), every sample updates the markers, and `desPos4` equals the number of samples | not executed | Estimator.Add32 | Estimator.Add |

`Estimator.OverflowDropsSample` and `Estimator.NegativeCounterDropsSamples`
exhibit the dropped samples of the as-written counter, and
`Estimator.WrappedCounterRestartsWarmUp` the second warm-up that follows. The rest of the
model uses the unbounded counter of `Estimator.Add`. For that counter,
`EstimatorTheorems.DesiredEnds` proves that `desPos4` is the number of
samples.
