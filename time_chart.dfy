/** The execution-time chart: every record's samples become points keyed
    by iteration number, the points are merged into one row per iteration
    holding one value per algorithm, and the first 50 rows are drawn. */
module TimeChart {
  import opened Common
  import opened BenchmarkEngine

  /** What the dashboard hands the chart for each record. */
  datatype Series = Series(algorithm: string, times: seq<real>)

  function SeriesOf(records: seq<BenchmarkMetrics>): (s: seq<Series>)
    ensures |s| == |records|
    ensures forall r :: 0 <= r < |records| ==> s[r] == Series(records[r].algorithm, records[r].times)
  {
    seq(|records|, r requires 0 <= r < |records| => Series(records[r].algorithm, records[r].times))
  }

  /** One element of `chartData`: `{ iteration, [algorithm]: value }`. */
  datatype Point = Point(iteration: int, algorithm: string, value: real)

  /** One element of `mergedData`. */
  datatype Row = Row(iteration: int, values: map<string, real>)

  // ------------------------------------------------------------ flattening

  /** The points of one record; `round` is
      `Number.parseFloat(time.toFixed(2))`. */
  function PointsOf(s: Series, round: real -> real): (ps: seq<Point>)
    ensures |ps| == |s.times|
  {
    seq(|s.times|, j requires 0 <= j < |s.times| => Point(j + 1, s.algorithm, round(s.times[j])))
  }

  /** `data.flatMap(...)`. */
  function ChartData(series: seq<Series>, round: real -> real): (ps: seq<Point>)
    ensures |ps| == TotalSamples(series)
  {
    if |series| == 0 then []
    else ChartData(series[..|series| - 1], round) + PointsOf(series[|series| - 1], round)
  }

  function TotalSamples(series: seq<Series>): nat
  {
    if |series| == 0 then 0
    else TotalSamples(series[..|series| - 1]) + |series[|series| - 1].times|
  }

  /** Where record `r`'s points start. */
  function Offset(series: seq<Series>, r: nat): nat
    requires r <= |series|
  {
    TotalSamples(series[..r])
  }

  /** The `j`-th sample of record `r` is the point numbered `j + 1` of that
      record's algorithm, sitting after all the points of earlier records. */
  lemma {:induction false} ChartDataIndex(series: seq<Series>, round: real -> real, r: nat, j: nat)
    requires r < |series| && j < |series[r].times|
    ensures Offset(series, r) + j < |ChartData(series, round)|
    ensures ChartData(series, round)[Offset(series, r) + j]
            == Point(j + 1, series[r].algorithm, round(series[r].times[j]))
  {
    var init := series[..|series| - 1];
    if r < |init| {
      assert series[..r] == init[..r];
      ChartDataIndex(init, round, r, j);
      TotalSamplesPrefix(init, r + 1);
      assert init[..r + 1][..r] == init[..r];
    } else {
      assert series[..r] == init;
    }
  }

  lemma {:induction false} TotalSamplesPrefix(series: seq<Series>, r: nat)
    requires r <= |series|
    ensures TotalSamples(series[..r]) <= TotalSamples(series)
    ensures r > 0 ==> TotalSamples(series[..r - 1]) + |series[r - 1].times| == TotalSamples(series[..r])
    decreases |series|
  {
    if r > 0 {
      assert series[..r][..r - 1] == series[..r - 1];
    }
    if r < |series| {
      var init := series[..|series| - 1];
      assert series[..r] == init[..r];
      TotalSamplesPrefix(init, r);
    } else {
      assert series[..r] == series;
    }
  }

  // --------------------------------------------------------------- merging

  /** `mergedData.find((d) => d.iteration === it)`, as an index. */
  function FindRow(rows: seq<Row>, it: int): (r: Option<nat>)
    ensures r.Some? ==> r.value < |rows| && rows[r.value].iteration == it
    ensures r.Some? ==> forall k :: 0 <= k < r.value ==> rows[k].iteration != it
    ensures r.None? ==> forall k :: 0 <= k < |rows| ==> rows[k].iteration != it
  {
    if |rows| == 0 then None
    else if rows[0].iteration == it then Some(0)
    else
      match FindRow(rows[1..], it)
      case None => None
      case Some(k) => Some(k + 1)
  }

  /** One turn of the merge loop: `Object.assign` into the row with the
      point's iteration number, or a new row at the end. */
  function Step(rows: seq<Row>, p: Point): seq<Row>
  {
    match FindRow(rows, p.iteration)
    case Some(k) => rows[k := Row(rows[k].iteration, rows[k].values[p.algorithm := p.value])]
    case None => rows + [Row(p.iteration, map[p.algorithm := p.value])]
  }

  /** The merge loop started from `rows`. */
  function MergeFrom(rows: seq<Row>, points: seq<Point>): seq<Row>
    decreases |points|
  {
    if |points| == 0 then rows else MergeFrom(Step(rows, points[0]), points[1..])
  }

  lemma {:induction false} MergeFromConcat(rows: seq<Row>, a: seq<Point>, b: seq<Point>)
    ensures MergeFrom(rows, a + b) == MergeFrom(MergeFrom(rows, a), b)
    decreases |a|
  {
    if |a| == 0 {
      assert a + b == b;
    } else {
      assert (a + b)[0] == a[0] && (a + b)[1..] == a[1..] + b;
      MergeFromConcat(Step(rows, a[0]), a[1..], b);
    }
  }

  /** The `forEach` building `mergedData`. */
  method MergeByIteration(points: seq<Point>) returns (rows: seq<Row>)
    ensures rows == MergeFrom([], points)
  {
    rows := [];
    for i := 0 to |points|
      invariant rows == MergeFrom([], points[..i])
    {
      var p := points[i];
      var existing := FindRow(rows, p.iteration);
      if existing.Some? {
        var k := existing.value;
        rows := rows[k := Row(rows[k].iteration, rows[k].values[p.algorithm := p.value])];
      } else {
        rows := rows + [Row(p.iteration, map[p.algorithm := p.value])];
      }
      assert points[..i + 1] == points[..i] + [p];
      MergeFromConcat([], points[..i], [p]);
      assert MergeFrom(MergeFrom([], points[..i]), [p]) == Step(MergeFrom([], points[..i]), p) by {
        assert [p][1..] == [];
      }
    }
    assert points[..|points|] == points;
  }

  /** A merge step never removes a row, never reorders rows and never drops
      a key from a row. */
  lemma {:induction false} MergeKeepsKeys(rows: seq<Row>, points: seq<Point>)
    ensures |MergeFrom(rows, points)| >= |rows|
    ensures forall i :: 0 <= i < |rows| ==>
      && MergeFrom(rows, points)[i].iteration == rows[i].iteration
      && rows[i].values.Keys <= MergeFrom(rows, points)[i].values.Keys
    decreases |points|
  {
    if |points| > 0 {
      var next := Step(rows, points[0]);
      assert |next| >= |rows|;
      assert forall i :: 0 <= i < |rows| ==>
        next[i].iteration == rows[i].iteration && rows[i].values.Keys <= next[i].values.Keys;
      MergeKeepsKeys(next, points[1..]);
    }
  }

  // -------------------------------------------------------------- its shape

  /** Row `i` holds iteration `i + 1`. */
  predicate WellShaped(rows: seq<Row>)
  {
    forall i :: 0 <= i < |rows| ==> rows[i].iteration == i + 1
  }

  lemma FindInShape(rows: seq<Row>, it: int)
    requires WellShaped(rows)
    ensures FindRow(rows, it) == if 1 <= it <= |rows| then Some(it - 1) else None
  {
    if 1 <= it <= |rows| {
      assert rows[it - 1].iteration == it;
    }
    var r := FindRow(rows, it);
    if r.Some? {
      assert rows[r.value].iteration == r.value + 1;
    }
  }

  /** A step on well-shaped rows writes into the row of the point's
      iteration, appending it when it is the next one. */
  lemma StepInShape(rows: seq<Row>, p: Point)
    requires WellShaped(rows) && 1 <= p.iteration <= |rows| + 1
    ensures var m := Step(rows, p);
      && WellShaped(m)
      && |m| == Max(|rows|, p.iteration)
      && forall i :: 0 <= i < |m| ==>
           m[i].values == if i == p.iteration - 1 then ValuesAt(rows, i)[p.algorithm := p.value] else ValuesAt(rows, i)
  {
    FindInShape(rows, p.iteration);
  }

  function Max(a: int, b: int): int
  {
    if a >= b then a else b
  }

  function Min(a: int, b: int): int
  {
    if a <= b then a else b
  }

  /** The values of row `i` before a record is merged in (rows beyond the
      end are empty). */
  function ValuesAt(rows: seq<Row>, i: nat): map<string, real>
  {
    if i < |rows| then rows[i].values else map[]
  }

  /** Merging the first `j` points of one record into well-shaped rows
      extends them to at least `j` rows and sets that record's value in each
      of the first `j` rows. */
  lemma {:induction false} MergeSeriesPrefix(rows: seq<Row>, s: Series, round: real -> real, j: nat)
    requires WellShaped(rows) && j <= |s.times|
    ensures var m := MergeFrom(rows, PointsOf(s, round)[..j]);
      && WellShaped(m)
      && |m| == Max(|rows|, j)
      && forall i :: 0 <= i < |m| ==>
           m[i].values == if i < j then ValuesAt(rows, i)[s.algorithm := round(s.times[i])] else ValuesAt(rows, i)
  {
    var ps := PointsOf(s, round);
    if j == 0 {
      assert ps[..0] == [];
    } else {
      MergeSeriesPrefix(rows, s, round, j - 1);
      var m := MergeFrom(rows, ps[..j - 1]);
      var p := ps[j - 1];
      assert ps[..j] == ps[..j - 1] + [p];
      MergeFromConcat(rows, ps[..j - 1], [p]);
      assert [p][1..] == [];
      assert MergeFrom(rows, ps[..j]) == Step(m, p);
      assert p == Point(j, s.algorithm, round(s.times[j - 1]));
      StepInShape(m, p);
    }
  }

  /** Merging a whole record. */
  lemma MergeSeries(rows: seq<Row>, s: Series, round: real -> real)
    requires WellShaped(rows)
    ensures var m := MergeFrom(rows, PointsOf(s, round));
      && WellShaped(m)
      && |m| == Max(|rows|, |s.times|)
      && forall i :: 0 <= i < |m| ==>
           m[i].values == if i < |s.times| then ValuesAt(rows, i)[s.algorithm := round(s.times[i])] else ValuesAt(rows, i)
  {
    MergeSeriesPrefix(rows, s, round, |s.times|);
    assert PointsOf(s, round)[..|s.times|] == PointsOf(s, round);
  }

  /** The longest record. */
  function MaxLength(series: seq<Series>): nat
  {
    if |series| == 0 then 0
    else Max(MaxLength(series[..|series| - 1]), |series[|series| - 1].times|)
  }

  /** Row `i` as the records define it: each record with more than `i`
      samples writes its algorithm's value, later records over earlier
      ones. */
  function Column(series: seq<Series>, round: real -> real, i: nat): map<string, real>
  {
    if |series| == 0 then map[]
    else
      var before := Column(series[..|series| - 1], round, i);
      var s := series[|series| - 1];
      if i < |s.times| then before[s.algorithm := round(s.times[i])] else before
  }

  /** `mergedData`: one row per iteration number `1..L`, `L` the longest
      record, in ascending order; row `i` is column `i` of the records. */
  lemma {:induction false} MergedShape(series: seq<Series>, round: real -> real)
    ensures var m := MergeFrom([], ChartData(series, round));
      && |m| == MaxLength(series)
      && WellShaped(m)
      && forall i :: 0 <= i < |m| ==> m[i].values == Column(series, round, i)
  {
    if |series| > 0 {
      var init, last := series[..|series| - 1], series[|series| - 1];
      MergedShape(init, round);
      var before := MergeFrom([], ChartData(init, round));
      MergeFromConcat([], ChartData(init, round), PointsOf(last, round));
      MergeSeries(before, last, round);
      var m := MergeFrom([], ChartData(series, round));
      forall i | 0 <= i < |m|
        ensures m[i].values == Column(series, round, i)
      {
        if i >= |before| {
          ColumnBeyond(init, round, i);
        }
      }
    }
  }

  /** No record reaches row `i` beyond the longest one. */
  lemma {:induction false} ColumnBeyond(series: seq<Series>, round: real -> real, i: nat)
    requires i >= MaxLength(series)
    ensures Column(series, round, i) == map[]
  {
    if |series| > 0 {
      ColumnBeyond(series[..|series| - 1], round, i);
    }
  }

  /** Column `i` has a key for exactly the algorithms of records with more
      than `i` samples. */
  lemma {:induction false} ColumnKeys(series: seq<Series>, round: real -> real, i: nat, a: string)
    ensures a in Column(series, round, i) <==>
      exists r :: 0 <= r < |series| && series[r].algorithm == a && i < |series[r].times|
  {
    if |series| > 0 {
      var init := series[..|series| - 1];
      ColumnKeys(init, round, i, a);
      if exists r :: 0 <= r < |series| && series[r].algorithm == a && i < |series[r].times| {
        var r :| 0 <= r < |series| && series[r].algorithm == a && i < |series[r].times|;
        if r < |init| {
          assert init[r] == series[r];
        }
      }
      if exists r :: 0 <= r < |init| && init[r].algorithm == a && i < |init[r].times| {
        var r :| 0 <= r < |init| && init[r].algorithm == a && i < |init[r].times|;
        assert series[r] == init[r];
      }
    }
  }

  /** The value in column `i` for an algorithm is the last record's of that
      algorithm reaching row `i`: later runs overwrite earlier ones. */
  lemma {:induction false} ColumnLastWriter(series: seq<Series>, round: real -> real, i: nat, r: nat)
    requires r < |series| && i < |series[r].times|
    requires forall q :: r < q < |series| && series[q].algorithm == series[r].algorithm ==> |series[q].times| <= i
    ensures series[r].algorithm in Column(series, round, i)
    ensures Column(series, round, i)[series[r].algorithm] == round(series[r].times[i])
  {
    var init, last := series[..|series| - 1], series[|series| - 1];
    if r < |init| {
      assert init[r] == series[r];
      forall q | r < q < |init| && init[q].algorithm == init[r].algorithm
        ensures |init[q].times| <= i
      {
        assert init[q] == series[q];
      }
      ColumnLastWriter(init, round, i, r);
    }
  }

  // -------------------------------------------------------------- drawing

  /** `mergedData.slice(0, 50)`. */
  function Visible(rows: seq<Row>): (v: seq<Row>)
    ensures |v| == Min(50, |rows|)
    ensures v <= rows
  {
    rows[..Min(50, |rows|)]
  }

  /** The rows the line chart receives. */
  method ChartRows(series: seq<Series>, round: real -> real) returns (visible: seq<Row>)
    ensures visible == Visible(MergeFrom([], ChartData(series, round)))
  {
    var points := ChartData(series, round);
    var merged := MergeByIteration(points);
    visible := merged[..Min(50, |merged|)];
  }

  /** The chart shows iterations `1..min(50, L)`, one row each, and row `i`
      carries, for every algorithm with a record reaching it, the value of
      that algorithm's last such record. */
  lemma VisibleRows(series: seq<Series>, round: real -> real)
    ensures var v := Visible(MergeFrom([], ChartData(series, round)));
      && |v| == Min(50, MaxLength(series))
      && forall i :: 0 <= i < |v| ==> v[i] == Row(i + 1, Column(series, round, i))
  {
    MergedShape(series, round);
  }
}
