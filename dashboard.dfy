/** The dashboard's cross-run aggregation: the benchmark records are grouped
    by algorithm label in order of first appearance, each group's samples
    are concatenated and summarised again with the engine's formulas, and
    the entry with the smallest mean time is the winner. Also the two
    numbers the dashboard derives from the configuration: how often a custom
    input was repeated, and the "total operations" it displays. */
module Dashboard {
  import opened Common
  import opened Statistics
  import opened BenchmarkEngine

  // ------------------------------------------------------------- grouping

  /** What `algorithmStats[label]` accumulates. */
  datatype Group = Group(times: seq<real>, memories: seq<real>, metrics: seq<BenchmarkMetrics>)

  /** The keys of `algorithmStats`, in insertion order: each label at the
      first record that carries it. */
  function Labels(records: seq<BenchmarkMetrics>): seq<string>
  {
    if |records| == 0 then []
    else
      var seen := Labels(records[..|records| - 1]);
      var name := records[|records| - 1].algorithm;
      if name in seen then seen else seen + [name]
  }

  /** What the grouping loop accumulates for `name`. */
  function GroupOf(records: seq<BenchmarkMetrics>, name: string): Group
  {
    if |records| == 0 then Group([], [], [])
    else
      var g := GroupOf(records[..|records| - 1], name);
      var m := records[|records| - 1];
      if m.algorithm == name then Group(g.times + m.times, g.memories + m.memorySnapshots, g.metrics + [m])
      else g
  }

  /** The `forEach` over `benchmarkData` building `algorithmStats`; `order`
      is the object's key order. */
  method GroupByAlgorithm(records: seq<BenchmarkMetrics>) returns (order: seq<string>, groups: map<string, Group>)
    ensures order == Labels(records)
    ensures forall name :: name in groups <==> name in order
    ensures forall name :: name in groups ==> groups[name] == GroupOf(records, name)
  {
    order, groups := [], map[];
    for i := 0 to |records|
      invariant order == Labels(records[..i])
      invariant forall name :: name in groups <==> name in order
      invariant forall name :: name in groups ==> groups[name] == GroupOf(records[..i], name)
    {
      var m := records[i];
      assert records[..i + 1][..i] == records[..i];
      if m.algorithm !in groups {
        order := order + [m.algorithm];
        groups := groups[m.algorithm := Group([], [], [])];
        assert GroupOf(records[..i], m.algorithm) == Group([], [], []) by {
          LabelsComplete(records[..i], m.algorithm);
          GroupOfAbsent(records[..i], m.algorithm);
        }
      }
      var g := groups[m.algorithm];
      groups := groups[m.algorithm := Group(g.times + m.times, g.memories + m.memorySnapshots, g.metrics + [m])];
    }
    assert records[..|records|] == records;
  }

  /** A label is a key exactly when some record carries it. */
  lemma {:induction false} LabelsComplete(records: seq<BenchmarkMetrics>, name: string)
    ensures name in Labels(records) <==> exists k :: 0 <= k < |records| && records[k].algorithm == name
  {
    if |records| > 0 {
      var init := records[..|records| - 1];
      LabelsComplete(init, name);
      if name in Labels(init) {
        var k :| 0 <= k < |init| && init[k].algorithm == name;
        assert records[k].algorithm == name;
      } else if exists k :: 0 <= k < |records| && records[k].algorithm == name {
        var k :| 0 <= k < |records| && records[k].algorithm == name;
        if k < |init| {
          assert init[k].algorithm == name;
        }
      }
    }
  }

  /** Each label is a key once. */
  lemma {:induction false} LabelsUnique(records: seq<BenchmarkMetrics>)
    ensures forall i, j :: 0 <= i < j < |Labels(records)| ==> Labels(records)[i] != Labels(records)[j]
  {
    if |records| > 0 {
      LabelsUnique(records[..|records| - 1]);
    }
  }

  /** Keys are only ever appended: the keys seen after the first `k`
      records stay, in the same order, at the front. */
  lemma {:induction false} LabelsGrow(records: seq<BenchmarkMetrics>, k: nat)
    requires k <= |records|
    ensures Labels(records[..k]) <= Labels(records)
    decreases |records|
  {
    if k < |records| {
      var init := records[..|records| - 1];
      assert records[..k] == init[..k];
      LabelsGrow(init, k);
    } else {
      assert records[..k] == records;
    }
  }

  lemma {:induction false} GroupOfAbsent(records: seq<BenchmarkMetrics>, name: string)
    requires forall k :: 0 <= k < |records| ==> records[k].algorithm != name
    ensures GroupOf(records, name) == Group([], [], [])
  {
    if |records| > 0 {
      var init := records[..|records| - 1];
      assert forall k :: 0 <= k < |init| ==> init[k] == records[k];
      GroupOfAbsent(init, name);
    }
  }

  /** Merging two batches of records merges their groups: every group's
      samples are the concatenation, in record order, of its records'
      samples. */
  lemma {:induction false} GroupOfConcat(a: seq<BenchmarkMetrics>, b: seq<BenchmarkMetrics>, name: string)
    ensures GroupOf(a + b, name).times == GroupOf(a, name).times + GroupOf(b, name).times
    ensures GroupOf(a + b, name).memories == GroupOf(a, name).memories + GroupOf(b, name).memories
    ensures GroupOf(a + b, name).metrics == GroupOf(a, name).metrics + GroupOf(b, name).metrics
    decreases |b|
  {
    if |b| == 0 {
      assert a + b == a;
    } else {
      var init := b[..|b| - 1];
      assert (a + b)[..|a + b| - 1] == a + init;
      GroupOfConcat(a, init, name);
      var ga, gi := GroupOf(a, name), GroupOf(init, name);
      AppendAssociative(ga.times, gi.times, b[|b| - 1].times);
      AppendAssociative(ga.memories, gi.memories, b[|b| - 1].memorySnapshots);
      AppendAssociative(ga.metrics, gi.metrics, [b[|b| - 1]]);
    }
  }

  /** A group holds exactly the records carrying its label, and the samples
      it holds are as many as those records took. */
  lemma {:induction false} GroupOfMembers(records: seq<BenchmarkMetrics>, name: string)
    ensures forall m :: m in GroupOf(records, name).metrics <==> m in records && m.algorithm == name
    ensures |GroupOf(records, name).times| == SamplesFor(records, name)
  {
    if |records| > 0 {
      var init := records[..|records| - 1];
      GroupOfMembers(init, name);
      assert records == init + [records[|records| - 1]];
    }
  }

  /** A group with a single record holds that record's own samples. */
  lemma {:induction false} GroupOfSingle(records: seq<BenchmarkMetrics>, name: string, m: BenchmarkMetrics)
    requires GroupOf(records, name).metrics == [m]
    ensures GroupOf(records, name) == Group(m.times, m.memorySnapshots, [m])
  {
    var init := records[..|records| - 1];
    var last := records[|records| - 1];
    if last.algorithm == name {
      var g := GroupOf(init, name);
      assert g.metrics + [last] == [m];
      assert |g.metrics| == 0;
      assert last == (g.metrics + [last])[0] == m;
      GroupOfEmpty(init, name);
      assert g.times + m.times == m.times && g.memories + m.memorySnapshots == m.memorySnapshots;
    } else {
      GroupOfSingle(init, name, m);
    }
  }

  lemma {:induction false} GroupOfEmpty(records: seq<BenchmarkMetrics>, name: string)
    requires GroupOf(records, name).metrics == []
    ensures GroupOf(records, name) == Group([], [], [])
  {
    if |records| > 0 {
      GroupOfEmpty(records[..|records| - 1], name);
    }
  }

  // ------------------------------------------------------------ statistics

  /** `1000 / avg` in floating point: division by zero gives `Infinity`. */
  datatype Quotient = Finite(value: real) | Infinite

  function OpsPerSecond(avg: real): (r: Quotient)
    ensures r.Infinite? <==> avg == 0.0
    ensures r.Finite? ==> r.value * avg == 1000.0
  {
    if avg == 0.0 then Infinite else Finite(1000.0 / avg)
  }

  /** One entry of `stats`. `varianceTime` stands for `stdDevTime`, its
      square root. */
  datatype AggregateStats = AggregateStats(
    algorithm: string,
    avgTime: real,
    minTime: real,
    maxTime: real,
    varianceTime: real,
    p50Time: real,
    p95Time: real,
    p99Time: real,
    avgMemory: real,
    opsPerSecond: Quotient,
    rawMetrics: seq<BenchmarkMetrics>)

  /** The engine's summary read off an aggregate entry. */
  function SummaryOf(s: AggregateStats): Summary
  {
    Summary(s.avgTime, s.minTime, s.maxTime, s.varianceTime, s.p50Time, s.p95Time, s.p99Time)
  }

  /** The `map` callback for one group: `Math.min`/`Math.max` for the
      extremes, the sorted copy for the percentiles; a `reduce` without an
      initial value throws on an empty group. The result is exactly what
      the engine's `calculateStatistics` computes for the merged samples. */
  function Summarize(name: string, g: Group): (r: Result<AggregateStats>)
    ensures r.Failure? <==> |g.times| == 0 || |g.memories| == 0
    ensures r.Failure? ==> r.error == EmptyReduce
    ensures r.Success? ==>
      && r.value.algorithm == name
      && CalculateStatistics(g.times) == Success(SummaryOf(r.value))
      && r.value.avgMemory == Mean(g.memories)
      && r.value.opsPerSecond == OpsPerSecond(r.value.avgTime)
      && r.value.rawMetrics == g.metrics
  {
    if |g.times| == 0 || |g.memories| == 0 then Failure(EmptyReduce)
    else
      // Mean, variance and percentiles use the engine's formulas verbatim;
      // the extremes come from `Math.min` and `Math.max` instead.
      var sm := CalculateStatistics(g.times).value;
      ExtremesAgree(g.times);
      Success(AggregateStats(
        algorithm := name,
        avgTime := sm.avg,
        minTime := MinOf(g.times),
        maxTime := MaxOf(g.times),
        varianceTime := sm.variance,
        p50Time := sm.p50,
        p95Time := sm.p95,
        p99Time := sm.p99,
        avgMemory := Mean(g.memories),
        opsPerSecond := OpsPerSecond(sm.avg),
        rawMetrics := g.metrics))
  }

  /** On a merged population the entry is ordered like the engine's own:
      the extremes bound every sample, the percentiles are samples between
      them, the mean lies between them and the variance is not negative. */
  lemma MergedOrdering(name: string, g: Group)
    requires Summarize(name, g).Success?
    ensures Describes(SummaryOf(Summarize(name, g).value), g.times)
  {
    SummaryMeaning(g.times);
  }

  /** An algorithm with a single record (one run) gets back exactly the
      statistics that record carries. */
  lemma SingleRunAgrees(records: seq<BenchmarkMetrics>, name: string, m: BenchmarkMetrics)
    requires GroupOf(records, name).metrics == [m]
    requires Summarised(m)
    ensures Summarize(name, GroupOf(records, name)).Success?
    ensures var s := Summarize(name, GroupOf(records, name)).value;
            && s.avgTime == m.avgTime && s.minTime == m.minTime && s.maxTime == m.maxTime
            && s.varianceTime == m.varianceTime
            && s.p50Time == m.p50Time && s.p95Time == m.p95Time && s.p99Time == m.p99Time
            && s.avgMemory == m.avgMemory
  {
    GroupOfSingle(records, name, m);
  }

  /** A group the `map` callback can summarise without throwing. */
  predicate Summarizable(g: Group)
  {
    |g.times| > 0 && |g.memories| > 0
  }

  /** `Object.entries(algorithmStats).map(...)`: one entry per key, in key
      order; an entry that throws aborts the whole `map`. */
  function SummarizeEach(names: seq<string>, groups: map<string, Group>): (r: Result<seq<AggregateStats>>)
    requires forall name :: name in names ==> name in groups
    ensures r.Failure? ==> r.error == EmptyReduce
    ensures r.Success? ==> |r.value| == |names|
  {
    if forall k :: 0 <= k < |names| ==> Summarizable(groups[names[k]]) then
      Success(seq(|names|, k requires 0 <= k < |names| => Summarize(names[k], groups[names[k]]).value))
    else Failure(EmptyReduce)
  }

  /** The statistics the dashboard shows for a list of records. */
  function AllStats(records: seq<BenchmarkMetrics>): Result<seq<AggregateStats>>
  {
    var names := Labels(records);
    SummarizeEach(names, map name | name in names :: GroupOf(records, name))
  }

  /** Lines 44-80 as the component runs them. */
  method BuildStats(records: seq<BenchmarkMetrics>) returns (r: Result<seq<AggregateStats>>)
    ensures r == AllStats(records)
  {
    var order, groups := GroupByAlgorithm(records);
    assert groups == map name | name in order :: GroupOf(records, name);
    r := SummarizeEach(order, groups);
  }

  /** For records the engine produced, aggregation never throws and yields
      exactly one entry per label. */
  lemma AggregateSucceeds(records: seq<BenchmarkMetrics>)
    requires forall k :: 0 <= k < |records| ==> Summarised(records[k])
    ensures AllStats(records).Success?
    ensures |AllStats(records).value| == |Labels(records)|
  {
    var names := Labels(records);
    var groups := map name | name in names :: GroupOf(records, name);
    forall k | 0 <= k < |names|
      ensures Summarizable(groups[names[k]])
    {
      var name := names[k];
      LabelsComplete(records, name);
      var j :| 0 <= j < |records| && records[j].algorithm == name;
      assert Summarised(records[j]);
      GroupNonEmpty(records, name, j);
    }
  }

  /** The entries follow the labels' order of first appearance, no label
      has two entries, and each entry summarises, with the engine's own
      formulas, all the samples every record of its label took. */
  lemma EngineRecordsAggregate(records: seq<BenchmarkMetrics>)
    requires forall k :: 0 <= k < |records| ==> Summarised(records[k])
    ensures AllStats(records).Success?
    ensures forall k :: 0 <= k < |AllStats(records).value| ==>
      var s := AllStats(records).value[k];
      && s.algorithm == Labels(records)[k]
      && CalculateStatistics(GroupOf(records, s.algorithm).times) == Success(SummaryOf(s))
      && |GroupOf(records, s.algorithm).times| == SamplesFor(records, s.algorithm)
    ensures forall i, j :: 0 <= i < j < |AllStats(records).value| ==>
      AllStats(records).value[i].algorithm != AllStats(records).value[j].algorithm
  {
    AggregateSucceeds(records);
    var names := Labels(records);
    forall k | 0 <= k < |names|
      ensures |GroupOf(records, names[k]).times| == SamplesFor(records, names[k])
    {
      GroupOfMembers(records, names[k]);
    }
    LabelsUnique(records);
  }

  /** A label carried by a summarised record has samples in its group. */
  lemma {:induction false} GroupNonEmpty(records: seq<BenchmarkMetrics>, name: string, j: nat)
    requires j < |records| && records[j].algorithm == name
    requires |records[j].times| > 0 && |records[j].memorySnapshots| > 0
    ensures |GroupOf(records, name).times| > 0 && |GroupOf(records, name).memories| > 0
  {
    var init := records[..|records| - 1];
    if j < |init| {
      assert init[j] == records[j];
      GroupNonEmpty(init, name, j);
    }
  }

  // ---------------------------------------------------------------- winner

  /** The index `stats.reduce((prev, current) => prev.avgTime > current.avgTime
      ? current : prev)` ends on. */
  function WinnerIndex(stats: seq<AggregateStats>): (w: nat)
    requires |stats| > 0
    ensures w < |stats|
    ensures forall k :: 0 <= k < |stats| ==> stats[w].avgTime <= stats[k].avgTime
    ensures forall k :: 0 <= k < w ==> stats[k].avgTime > stats[w].avgTime
  {
    if |stats| == 1 then 0
    else
      var w := WinnerIndex(stats[..|stats| - 1]);
      if stats[w].avgTime > stats[|stats| - 1].avgTime then |stats| - 1 else w
  }

  /** The winner: the earliest entry with the smallest mean time; the
      `reduce` has no initial value and throws on an empty list. */
  function Winner(stats: seq<AggregateStats>): (r: Result<AggregateStats>)
    ensures r.Failure? <==> |stats| == 0
    ensures r.Failure? ==> r.error == EmptyReduce
    ensures r.Success? ==> r.value in stats
  {
    if |stats| == 0 then Failure(EmptyReduce) else Success(stats[WinnerIndex(stats)])
  }

  /** The winner is unique up to ties: any entry with a strictly smaller
      mean than every earlier entry and no larger mean than any other entry
      is the one chosen. */
  lemma WinnerIsFirstMinimum(stats: seq<AggregateStats>, w: nat)
    requires w < |stats|
    requires forall k :: 0 <= k < |stats| ==> stats[w].avgTime <= stats[k].avgTime
    requires forall k :: 0 <= k < w ==> stats[k].avgTime > stats[w].avgTime
    ensures WinnerIndex(stats) == w
  {
  }

  // ------------------------------------------------------------- the view

  /** What the results area shows once loading has finished. */
  datatype Screen = NoResultsYet | Results(stats: seq<AggregateStats>, winner: AggregateStats)

  /** The component as written: absent results show "No results yet";
      any list, even an empty one, is aggregated and needs a winner. */
  function RenderAsWritten(benchmarkData: Option<seq<BenchmarkMetrics>>): (r: Result<Screen>)
    ensures benchmarkData.None? ==> r == Success(NoResultsYet)
    ensures benchmarkData == Some([]) ==> r == Failure(EmptyReduce)
  {
    match benchmarkData
    case None => Success(NoResultsYet)
    case Some(records) =>
      match AllStats(records)
      case Failure(e) => Failure(e)
      case Success(stats) =>
        match Winner(stats)
        case Failure(e) => Failure(e)
        case Success(w) => Success(Results(stats, w))
  }

  /** With zero runs (the configuration panel turns an empty or invalid
      field into 0) the engine runs nothing and returns an empty list, and
      the component throws when it picks a winner. */
  lemma ZeroRunsBreakRender(algorithms: seq<string>, runs: int)
    requires runs <= 0
    ensures Invocations(algorithms, runs) == []
    ensures RenderAsWritten(Some([])) == Failure(EmptyReduce)
  {
    InvocationsLength(algorithms, runs);
  }

  /** The view with an empty list treated like absent results. */
  function Render(benchmarkData: Option<seq<BenchmarkMetrics>>): (r: Result<Screen>)
    ensures benchmarkData.None? || benchmarkData == Some([]) ==> r == Success(NoResultsYet)
    ensures benchmarkData.Some? && benchmarkData.value != [] ==> r == RenderAsWritten(benchmarkData)
  {
    match benchmarkData
    case None => Success(NoResultsYet)
    case Some(records) => if records == [] then Success(NoResultsYet) else RenderAsWritten(benchmarkData)
  }

  /** Whatever a successful benchmark returns, the corrected view shows it
      without throwing; a non-empty list shows one entry per label and the
      fastest of them as winner. */
  lemma RenderNeverFails(records: seq<BenchmarkMetrics>)
    requires forall k :: 0 <= k < |records| ==> Summarised(records[k])
    ensures Render(Some(records)).Success?
    ensures records != [] ==>
      && Render(Some(records)).value.Results?
      && |Render(Some(records)).value.stats| == |Labels(records)|
      && (forall s :: s in Render(Some(records)).value.stats ==>
            Render(Some(records)).value.winner.avgTime <= s.avgTime)
  {
    if records != [] {
      AggregateSucceeds(records);
      LabelsComplete(records, records[0].algorithm);
      var stats := AllStats(records).value;
      assert |stats| > 0;
      var w := WinnerIndex(stats);
      assert Render(Some(records)) == Success(Results(stats, stats[w]));
    }
  }

  // ------------------------------------------------------ derived numbers

  /** The repetition note: how many copies of the encoded input the engine
      tiles into the buffer. With no encoded bytes the division gives
      `Infinity`. */
  datatype Repetitions = Copies(count: int) | Unbounded

  function RepetitionNote(d: InputDetails): (r: Option<Repetitions>)
    ensures r.Some? <==> d.isCustomInput && d.encodedLength < d.dataSize
    ensures r == Some(Unbounded) <==> d.isCustomInput && d.encodedLength == 0 < d.dataSize
    ensures r.Some? && r.value.Copies? ==>
      && r.value.count * d.encodedLength >= d.dataSize
      && (r.value.count - 1) * d.encodedLength < d.dataSize
  {
    if d.isCustomInput && d.encodedLength < d.dataSize then
      if d.encodedLength == 0 then Some(Unbounded) else Some(Copies(CeilDiv(d.dataSize, d.encodedLength)))
    else None
  }

  /** For the details the engine records, the note appears exactly when the
      buffer is longer than the encoded input, and the count it shows is the
      number of (possibly partial) copies in the buffer: at least two, and
      the buffer is the first `dataSize` bytes of that many copies. */
  lemma RepetitionNoteMatchesTiling(userInput: string, encoded: seq<byte>, dataSize: int)
    requires EncodingOf(userInput, encoded)
    ensures var note := RepetitionNote(InputDetailsOf(userInput, encoded, dataSize));
            && (note.Some? <==> |userInput| > 0 && |encoded| < dataSize)
            && (note.Some? ==>
                  && note.value.Copies?
                  && note.value.count >= 2
                  && Tiled(encoded, dataSize) == Repeat(encoded, note.value.count)[..dataSize])
  {
    var d := InputDetailsOf(userInput, encoded, dataSize);
    if |userInput| > 0 && |encoded| < dataSize {
      var c := CeilDiv(dataSize, |encoded|);
      TiledIsRepetitionPrefix(encoded, dataSize);
      MulBounds(c - 2, |encoded|);
      assert (c - 2) * |encoded| == c * |encoded| - 2 * |encoded|;
    }
  }

  /** "Total operations performed" as displayed: `iterations * runs`. */
  function DisplayedTotal(iterations: int, runs: int): int
  {
    iterations * runs
  }

  /** The iterations the engine actually performs for each algorithm label
      listed once: `runs` runs of `ceil(iterations / runs)`. */
  function PerformedPerAlgorithm(iterations: int, runs: int): (t: int)
    ensures runs > 0 ==> iterations <= t < iterations + runs
    ensures runs <= 0 ==> t == 0
  {
    if runs > 0 then
      SplitCoversIterations(iterations, runs);
      runs * IterationsPerRun(iterations, runs)
    else 0
  }

  /** With the panel's defaults, 1000 iterations over 5 runs, the displayed
      total is 5000 while each algorithm performed 1000 iterations. */
  lemma DisplayedTotalOverstates()
    ensures DisplayedTotal(1000, 5) == 5000
    ensures PerformedPerAlgorithm(1000, 5) == 1000
  {
    assert IterationsPerRun(1000, 5) == 200 by {
      CeilDivIsLeast(1000, 5, 200);
    }
  }

  /** For positive settings the displayed total is never below what one
      algorithm performed, and equals it only with one run or one
      iteration. */
  lemma DisplayedTotalBound(iterations: int, runs: int)
    requires iterations > 0 && runs > 0
    ensures PerformedPerAlgorithm(iterations, runs) <= DisplayedTotal(iterations, runs)
    ensures PerformedPerAlgorithm(iterations, runs) == DisplayedTotal(iterations, runs)
            <==> runs == 1 || iterations == 1
  {
    var q := IterationsPerRun(iterations, runs);
    MultiplyMonotone(runs, 1, iterations);
    CeilDivIsLeast(iterations, runs, iterations);
    MultiplyMonotone(iterations, q, runs);
    MulBounds(q, runs);
    if runs * q == iterations * runs {
      MulBounds(q - iterations, runs);
      assert (q - iterations) * runs == q * runs - iterations * runs;
      assert (iterations - 1) * (runs - 1) == (iterations - 1) * runs - (iterations - 1);
      ProductBelowOne(iterations - 1, runs - 1);
    }
  }

  lemma ProductBelowOne(a: nat, b: nat)
    requires a * b < 1
    ensures a == 0 || b == 0
  {
    if b > 0 {
      MulBounds(a, b);
    }
  }
}
