/** The statistics formulas of `calculateStatistics` in the benchmark engine,
    which the dashboard repeats over merged populations: arithmetic mean,
    population variance, and nearest-rank percentiles read off an ascending
    copy of the samples. Samples are exact reals. */
module Statistics {
  import opened Common

  /** `s.reduce((a, b) => a + b)` when `s` is non-empty, and the initial
      `0` of a reduce that has one. */
  function Sum(s: seq<real>): real
  {
    if |s| == 0 then 0.0 else Sum(s[..|s| - 1]) + s[|s| - 1]
  }

  /** Sum of squared deviations from `avg`: the numerator of the variance. */
  function SquaredDeviations(s: seq<real>, avg: real): real
  {
    if |s| == 0 then 0.0
    else SquaredDeviations(s[..|s| - 1], avg) + (s[|s| - 1] - avg) * (s[|s| - 1] - avg)
  }

  function Mean(s: seq<real>): real
    requires |s| > 0
  {
    Sum(s) / (|s| as real)
  }

  /** Population variance: squared deviations divided by `n`, not `n - 1`. */
  function Variance(s: seq<real>): real
    requires |s| > 0
  {
    SquaredDeviations(s, Mean(s)) / (|s| as real)
  }

  predicate Sorted(s: seq<real>)
  {
    forall i, j :: 0 <= i <= j < |s| ==> s[i] <= s[j]
  }

  /** Inserts `x` into an ascending sequence, before the first element
      that is not smaller. */
  function Insert(x: real, s: seq<real>): (r: seq<real>)
    requires Sorted(s)
    ensures Sorted(r)
    ensures multiset(r) == multiset(s) + multiset{x}
  {
    if |s| == 0 then [x]
    else if x <= s[0] then [x] + s
    else
      var tail := Insert(x, s[1..]);
      assert s == [s[0]] + s[1..];
      assert forall k :: 0 <= k < |tail| ==> s[0] <= tail[k] by {
        forall k | 0 <= k < |tail| ensures s[0] <= tail[k] {
          assert tail[k] in multiset(tail);
          if tail[k] != x {
            assert tail[k] in multiset(s[1..]);
          }
        }
      }
      [s[0]] + tail
  }

  /** `[...s].sort((a, b) => a - b)`: an ascending permutation of `s`. On
      reals there is exactly one such sequence, so any sorting algorithm
      yields this one. */
  function SortAscending(s: seq<real>): (r: seq<real>)
    ensures Sorted(r)
    ensures multiset(r) == multiset(s)
    ensures |r| == |s|
  {
    if |s| == 0 then []
    else
      assert s == [s[0]] + s[1..];
      var r := Insert(s[0], SortAscending(s[1..]));
      assert |r| == |multiset(r)|;
      r
  }

  /** `Math.min(...s)`. */
  function MinOf(s: seq<real>): (m: real)
    requires |s| > 0
    ensures m in s
    ensures forall i :: 0 <= i < |s| ==> m <= s[i]
  {
    if |s| == 1 then s[0]
    else
      var m := MinOf(s[..|s| - 1]);
      assert forall i :: 0 <= i < |s| - 1 ==> s[..|s| - 1][i] == s[i];
      if s[|s| - 1] < m then s[|s| - 1] else m
  }

  /** `Math.max(...s)`. */
  function MaxOf(s: seq<real>): (m: real)
    requires |s| > 0
    ensures m in s
    ensures forall i :: 0 <= i < |s| ==> s[i] <= m
  {
    if |s| == 1 then s[0]
    else
      var m := MaxOf(s[..|s| - 1]);
      assert forall i :: 0 <= i < |s| - 1 ==> s[..|s| - 1][i] == s[i];
      if s[|s| - 1] > m then s[|s| - 1] else m
  }

  /** `Math.floor(n * p / 100)` for a percentage `p`; the engine uses 50, 95
      and 99. */
  function PercentileIndex(n: nat, p: nat): nat
  {
    n * p / 100
  }

  /** The three nearest-rank indices are ordered and in range for every
      non-empty population, so the source needs no clamp. */
  lemma PercentileIndicesInRange(n: nat)
    requires n > 0
    ensures PercentileIndex(n, 50) <= PercentileIndex(n, 95)
    ensures PercentileIndex(n, 95) <= PercentileIndex(n, 99)
    ensures PercentileIndex(n, 99) < n
  {
    DivMonotone(n * 50, n * 95);
    DivMonotone(n * 95, n * 99);
    assert n * 99 < n * 100;
    DivBelow(n * 99, n);
  }

  lemma DivMonotone(a: nat, b: nat)
    requires a <= b
    ensures a / 100 <= b / 100
  {
  }

  lemma DivBelow(a: nat, n: nat)
    requires a < n * 100
    ensures a / 100 < n
  {
  }

  /** The record `calculateStatistics` returns (its `stdDev` is the square
      root of `variance`). */
  datatype Summary = Summary(
    avg: real,
    min: real,
    max: real,
    variance: real,
    p50: real,
    p95: real,
    p99: real)

  /** `calculateStatistics(times)`: fails exactly when `times` is empty, where
      the first `reduce` has no initial value and throws. */
  function CalculateStatistics(times: seq<real>): (r: Result<Summary>)
    ensures r.Failure? <==> |times| == 0
    ensures r.Failure? ==> r.error == EmptyReduce
  {
    if |times| == 0 then Failure(EmptyReduce)
    else
      var sorted := SortAscending(times);
      var n := |sorted|;
      PercentileIndicesInRange(n);
      Success(Summary(
        avg := Mean(times),
        min := sorted[0],
        max := sorted[n - 1],
        variance := Variance(times),
        p50 := sorted[PercentileIndex(n, 50)],
        p95 := sorted[PercentileIndex(n, 95)],
        p99 := sorted[PercentileIndex(n, 99)]))
  }

  /** What the fields of a summary of a non-empty population mean. */
  predicate Describes(sm: Summary, times: seq<real>)
  {
    && |times| > 0
    && sm.min in times && sm.max in times
    && (forall i :: 0 <= i < |times| ==> sm.min <= times[i] <= sm.max)
    && sm.p50 in times && sm.p95 in times && sm.p99 in times
    && sm.min <= sm.p50 <= sm.p95 <= sm.p99 <= sm.max
    && sm.min <= sm.avg <= sm.max
    && sm.variance >= 0.0
  }

  /** For a non-empty population: min and max are the smallest and largest
      samples; the percentiles are samples, ordered between them; the mean
      lies between min and max; the variance is not negative. */
  lemma SummaryMeaning(times: seq<real>)
    requires |times| > 0
    ensures CalculateStatistics(times).Success?
    ensures Describes(CalculateStatistics(times).value, times)
  {
    var sm := CalculateStatistics(times).value;
    var sorted := SortAscending(times);
    SortedEnds(times, sorted);
    SortedPercentiles(times, sorted);
    MeanBetween(times, sm.min, sm.max);
    SquaredDeviationsNonNegative(times, sm.avg);
  }

  /** The nearest-rank percentiles of an ascending permutation are samples,
      ordered between its ends. */
  lemma SortedPercentiles(s: seq<real>, sorted: seq<real>)
    requires |s| > 0
    requires Sorted(sorted) && multiset(sorted) == multiset(s)
    ensures |sorted| == |s| && PercentileIndex(|s|, 99) < |s|
    ensures var n := |s|;
      && sorted[PercentileIndex(n, 50)] in s
      && sorted[PercentileIndex(n, 95)] in s
      && sorted[PercentileIndex(n, 99)] in s
      && sorted[0] <= sorted[PercentileIndex(n, 50)] <= sorted[PercentileIndex(n, 95)]
      && sorted[PercentileIndex(n, 95)] <= sorted[PercentileIndex(n, 99)] <= sorted[n - 1]
  {
    var n := |s|;
    assert |sorted| == |multiset(sorted)| == |multiset(s)| == n;
    PercentileIndicesInRange(n);
    var i50, i95, i99 := PercentileIndex(n, 50), PercentileIndex(n, 95), PercentileIndex(n, 99);
    assert sorted[i50] in multiset(sorted) && sorted[i95] in multiset(sorted) && sorted[i99] in multiset(sorted);
  }

  /** The ends of an ascending permutation are the population's extremes. */
  lemma SortedEnds(s: seq<real>, sorted: seq<real>)
    requires |s| > 0
    requires Sorted(sorted) && multiset(sorted) == multiset(s)
    ensures |sorted| == |s|
    ensures sorted[0] in s && sorted[|sorted| - 1] in s
    ensures forall i :: 0 <= i < |s| ==> sorted[0] <= s[i] <= sorted[|sorted| - 1]
  {
    assert |sorted| == |multiset(sorted)| == |multiset(s)| == |s|;
    assert sorted[0] in multiset(sorted) && sorted[|sorted| - 1] in multiset(sorted);
    forall i | 0 <= i < |s|
      ensures sorted[0] <= s[i] <= sorted[|sorted| - 1]
    {
      assert s[i] in multiset(sorted);
      var k :| 0 <= k < |sorted| && sorted[k] == s[i];
    }
  }

  lemma {:induction false} SumBounds(s: seq<real>, lo: real, hi: real)
    requires forall i :: 0 <= i < |s| ==> lo <= s[i] <= hi
    ensures (|s| as real) * lo <= Sum(s) <= (|s| as real) * hi
  {
    if |s| > 0 {
      var init := s[..|s| - 1];
      assert forall i :: 0 <= i < |init| ==> init[i] == s[i];
      SumBounds(init, lo, hi);
    }
  }

  lemma MeanBetween(s: seq<real>, lo: real, hi: real)
    requires |s| > 0
    requires forall i :: 0 <= i < |s| ==> lo <= s[i] <= hi
    ensures lo <= Mean(s) <= hi
  {
    SumBounds(s, lo, hi);
    var n := |s| as real;
    assert n * lo <= Sum(s) <= n * hi;
    assert lo == (n * lo) / n;
    assert hi == (n * hi) / n;
  }

  lemma {:induction false} SquaredDeviationsNonNegative(s: seq<real>, avg: real)
    ensures SquaredDeviations(s, avg) >= 0.0
  {
    if |s| > 0 {
      SquaredDeviationsNonNegative(s[..|s| - 1], avg);
      var d := s[|s| - 1] - avg;
      assert d * d >= 0.0;
    }
  }

  /** The engine reads min and max off the sorted copy, the dashboard calls
      `Math.min` and `Math.max`: both give the same numbers. */
  lemma ExtremesAgree(times: seq<real>)
    requires |times| > 0
    ensures CalculateStatistics(times).Success?
    ensures CalculateStatistics(times).value.min == MinOf(times)
    ensures CalculateStatistics(times).value.max == MaxOf(times)
  {
    var sorted := SortAscending(times);
    SortedEnds(times, sorted);
    var lo, hi := MinOf(times), MaxOf(times);
    var i :| 0 <= i < |times| && times[i] == lo;
    var j :| 0 <= j < |times| && times[j] == sorted[0];
    assert sorted[0] <= lo && lo <= sorted[0];
    var k :| 0 <= k < |times| && times[k] == hi;
    var l :| 0 <= l < |times| && times[l] == sorted[|sorted| - 1];
    assert sorted[|sorted| - 1] <= hi && hi <= sorted[|sorted| - 1];
  }

  /** The mean of a non-empty population of non-negative samples is not
      negative. */
  lemma MeanNonNegative(s: seq<real>)
    requires |s| > 0
    requires forall i :: 0 <= i < |s| ==> s[i] >= 0.0
    ensures Mean(s) >= 0.0
  {
    var m := MaxOf(s);
    MeanBetween(s, 0.0, m);
  }
}
