/** The exported reports: a plain-text report of fixed layout, a CSV table
    with one quoted row per algorithm, and a JSON document. They read the
    benchmark configuration and the dashboard's aggregate statistics. */
module ReportGenerator {
  import opened Common
  import Platform
  import opened BenchmarkEngine
  import opened Dashboard

  /** What the export panel hands the generators. */
  datatype ReportData = ReportData(
    algorithms: seq<string>,
    iterations: int,
    dataSize: int,
    runs: int,
    timestamp: string,
    testInput: string,
    stats: seq<AggregateStats>)

  /** The number-to-text conversions the reports rely on:
      `fixed(x, d)` is `x.toFixed(d)`, `number` is a number interpolated
      into a template, `date` is `new Date(t).toLocaleString()`, `ops` is the
      dashboard's already formatted operations per second, and `sqrt` is
      `Math.sqrt`, which turns the variance into the standard deviation. */
  datatype Formatter = Formatter(
    fixed: (real, nat) -> string,
    number: int -> string,
    date: string -> string,
    ops: Quotient -> string,
    sqrt: real -> real)

  /** Text that cannot break a line, a CSV cell or a CSV quote. */
  predicate Plain(s: string)
  {
    '\n' !in s && ',' !in s && '"' !in s
  }

  /** The engine's record labels are plain, so every row it leads to reads
      back from the CSV table. */
  lemma LabelsArePlain(alg: Platform.Algorithm)
    ensures Plain(Label(alg))
  {
  }

  /** Every number the formatter produces is plain text, as the output of
      `toFixed` and of number interpolation is; a date may hold commas but
      no line break. */
  ghost predicate PlainFormatter(fmt: Formatter)
  {
    && (forall x, d :: Plain(fmt.fixed(x, d)))
    && (forall n :: Plain(fmt.number(n)))
    && (forall q :: Plain(fmt.ops(q)))
    && (forall t :: '\n' !in fmt.date(t))
  }

  // ---------------------------------------------------------- text report

  const Banner: string := RepeatChar('=', 80)

  /** `data.testInput ? ... : ...`: an empty input is falsy. */
  function InputLine(d: ReportData, fmt: Formatter): string
  {
    if |d.testInput| > 0 then "Test Input Length: " + fmt.number(|d.testInput|) + " characters"
    else "Test Input: Random Data"
  }

  /** The fifteen lines the report starts with. */
  function HeaderLines(d: ReportData, fmt: Formatter): (lines: seq<string>)
    ensures |lines| == 15
  {
    [ Banner,
      "CRYPTOGRAPHIC BENCHMARK REPORT",
      Banner,
      "",
      "Generated: " + fmt.date(d.timestamp),
      "",
      "--- CONFIGURATION ---",
      "Algorithms: " + Join(d.algorithms, ", "),
      "Iterations: " + fmt.number(d.iterations),
      "Data Size: " + fmt.number(d.dataSize) + " bytes",
      "Number of Runs: " + fmt.number(d.runs),
      InputLine(d, fmt),
      "",
      "--- STATISTICS ---",
      "" ]
  }

  /** The eleven lines pushed for one algorithm. */
  function StatLines(s: AggregateStats, fmt: Formatter): (lines: seq<string>)
    ensures |lines| == 11
  {
    [ "Algorithm: " + s.algorithm,
      "  Min Time:      " + fmt.fixed(s.minTime, 2) + " ms",
      "  Avg Time:      " + fmt.fixed(s.avgTime, 2) + " ms",
      "  Max Time:      " + fmt.fixed(s.maxTime, 2) + " ms",
      "  Std Dev:       " + fmt.fixed(fmt.sqrt(s.varianceTime), 2) + " ms",
      "  P50 (Median):  " + fmt.fixed(s.p50Time, 2) + " ms",
      "  P95:           " + fmt.fixed(s.p95Time, 2) + " ms",
      "  P99:           " + fmt.fixed(s.p99Time, 2) + " ms",
      "  Avg Memory:    " + fmt.fixed(s.avgMemory, 4) + " MB",
      "  Ops/Second:    " + fmt.ops(s.opsPerSecond),
      "" ]
  }

  /** The blocks of all algorithms, in the order of `stats`. */
  function StatBlocks(stats: seq<AggregateStats>, fmt: Formatter): (lines: seq<string>)
    ensures |lines| == 11 * |stats|
  {
    if |stats| == 0 then []
    else StatBlocks(stats[..|stats| - 1], fmt) + StatLines(stats[|stats| - 1], fmt)
  }

  const FooterLines: seq<string> := [Banner, "END OF REPORT", Banner]

  /** The lines of the text report, before they are joined. */
  function TextReportLines(d: ReportData, fmt: Formatter): (lines: seq<string>)
    ensures |lines| == 18 + 11 * |d.stats|
  {
    HeaderLines(d, fmt) + StatBlocks(d.stats, fmt) + FooterLines
  }

  /** `generateTextReport`: the header, one block pushed line by line per
      algorithm, the footer, joined with line breaks. */
  method GenerateTextReport(d: ReportData, fmt: Formatter) returns (report: string)
    ensures report == Join(TextReportLines(d, fmt), "\n")
  {
    var lines := HeaderLines(d, fmt);
    lines := PushStats(lines, d.stats, fmt);
    ghost var body := lines;
    lines := lines + [Banner];
    lines := lines + ["END OF REPORT"];
    lines := lines + [Banner];
    assert lines == body + FooterLines;
    report := Join(lines, "\n");
  }

  /** `data.stats.forEach(...)`. */
  method PushStats(header: seq<string>, stats: seq<AggregateStats>, fmt: Formatter) returns (lines: seq<string>)
    ensures lines == header + StatBlocks(stats, fmt)
  {
    lines := header;
    for k := 0 to |stats|
      invariant lines == header + StatBlocks(stats[..k], fmt)
    {
      lines := PushStat(lines, stats[k], fmt);
      assert stats[..k + 1][..k] == stats[..k];
    }
    assert stats[..|stats|] == stats;
  }

  /** The `forEach` callback: eleven pushes for one algorithm. */
  method PushStat(lines: seq<string>, s: AggregateStats, fmt: Formatter) returns (pushed: seq<string>)
    ensures pushed == lines + StatLines(s, fmt)
  {
    pushed := lines;
    pushed := pushed + ["Algorithm: " + s.algorithm];
    pushed := pushed + ["  Min Time:      " + fmt.fixed(s.minTime, 2) + " ms"];
    pushed := pushed + ["  Avg Time:      " + fmt.fixed(s.avgTime, 2) + " ms"];
    pushed := pushed + ["  Max Time:      " + fmt.fixed(s.maxTime, 2) + " ms"];
    pushed := pushed + ["  Std Dev:       " + fmt.fixed(fmt.sqrt(s.varianceTime), 2) + " ms"];
    pushed := pushed + ["  P50 (Median):  " + fmt.fixed(s.p50Time, 2) + " ms"];
    pushed := pushed + ["  P95:           " + fmt.fixed(s.p95Time, 2) + " ms"];
    pushed := pushed + ["  P99:           " + fmt.fixed(s.p99Time, 2) + " ms"];
    pushed := pushed + ["  Avg Memory:    " + fmt.fixed(s.avgMemory, 4) + " MB"];
    pushed := pushed + ["  Ops/Second:    " + fmt.ops(s.opsPerSecond)];
    pushed := pushed + [""];
  }

  lemma {:induction false} StatBlocksLayout(stats: seq<AggregateStats>, fmt: Formatter)
    ensures |StatBlocks(stats, fmt)| == 11 * |stats|
    ensures forall k, j :: 0 <= k < |stats| && 0 <= j < 11 ==>
      StatBlocks(stats, fmt)[11 * k + j] == StatLines(stats[k], fmt)[j]
  {
    if |stats| > 0 {
      var init := stats[..|stats| - 1];
      StatBlocksLayout(init, fmt);
      forall k, j | 0 <= k < |stats| && 0 <= j < 11
        ensures StatBlocks(stats, fmt)[11 * k + j] == StatLines(stats[k], fmt)[j]
      {
        if k < |init| {
          assert init[k] == stats[k];
        }
      }
    }
  }

  /** The report has `18 + 11n` lines for `n` algorithms: banners first and
      last, the input line at position 11, and algorithm `k`'s block at
      line `15 + 11k`, starting with its name and ending with a blank. */
  lemma TextReportLayout(d: ReportData, fmt: Formatter)
    ensures var lines := TextReportLines(d, fmt);
      && |lines| == 18 + 11 * |d.stats|
      && lines[0] == lines[2] == lines[|lines| - 3] == lines[|lines| - 1] == Banner
      && lines[1] == "CRYPTOGRAPHIC BENCHMARK REPORT"
      && lines[|lines| - 2] == "END OF REPORT"
      && lines[11] == InputLine(d, fmt)
      && forall k, j :: 0 <= k < |d.stats| && 0 <= j < 11 ==>
           lines[15 + 11 * k + j] == StatLines(d.stats[k], fmt)[j]
  {
    StatBlocksLayout(d.stats, fmt);
  }

  /** The input line gives the input's length exactly when there is an input. */
  lemma InputLineMeaning(d: ReportData, fmt: Formatter)
    ensures InputLine(d, fmt) == "Test Input: Random Data" <==> d.testInput == ""
    ensures |d.testInput| > 0 ==>
      InputLine(d, fmt) == "Test Input Length: " + fmt.number(|d.testInput|) + " characters"
  {
    if |d.testInput| > 0 {
      var l := InputLine(d, fmt);
      assert l[10] == ' ' != "Test Input: Random Data"[10];
    }
  }

  /** None of the report's lines breaks: every line comes back whole. */
  lemma {:induction false} TextLinesPlain(d: ReportData, fmt: Formatter)
    requires PlainFormatter(fmt)
    requires forall i :: 0 <= i < |d.algorithms| ==> '\n' !in d.algorithms[i]
    requires forall k :: 0 <= k < |d.stats| ==> '\n' !in d.stats[k].algorithm
    ensures forall i :: 0 <= i < |TextReportLines(d, fmt)| ==> '\n' !in TextReportLines(d, fmt)[i]
  {
    HeaderPlain(d, fmt);
    BlocksPlain(d.stats, fmt);
    BannerPlain();
    var blocks := StatBlocks(d.stats, fmt);
    var lines := TextReportLines(d, fmt);
    assert forall i :: 0 <= i < 3 ==> '\n' !in FooterLines[i];
    forall i | 0 <= i < |lines|
      ensures '\n' !in lines[i]
    {
      if i < 15 {
        assert lines[i] == HeaderLines(d, fmt)[i];
      } else if i < 15 + |blocks| {
        assert lines[i] == blocks[i - 15];
      } else {
        assert lines[i] == FooterLines[i - 15 - |blocks|];
      }
    }
  }

  /** A line made of plain literal text around a piece without a line
      break has none either. */
  lemma Framed(prefix: string, piece: string, suffix: string)
    requires '\n' !in prefix && '\n' !in piece && '\n' !in suffix
    ensures '\n' !in prefix + piece + suffix
  {
  }

  lemma FixedPlain(fmt: Formatter, x: real, d: nat)
    requires PlainFormatter(fmt)
    ensures Plain(fmt.fixed(x, d))
  {
  }

  lemma NumberPlain(fmt: Formatter, n: int)
    requires PlainFormatter(fmt)
    ensures Plain(fmt.number(n))
  {
  }

  lemma {:induction false} BlocksPlain(stats: seq<AggregateStats>, fmt: Formatter)
    requires PlainFormatter(fmt)
    requires forall k :: 0 <= k < |stats| ==> '\n' !in stats[k].algorithm
    ensures forall i :: 0 <= i < |StatBlocks(stats, fmt)| ==> '\n' !in StatBlocks(stats, fmt)[i]
  {
    if |stats| > 0 {
      var init := stats[..|stats| - 1];
      BlocksPlain(init, fmt);
      StatLinesPlain(stats[|stats| - 1], fmt);
    }
  }

  lemma BannerPlain()
    ensures '\n' !in Banner
  {
  }

  lemma TitlesPlain()
    ensures '\n' !in "CRYPTOGRAPHIC BENCHMARK REPORT"
    ensures '\n' !in "--- CONFIGURATION ---"
    ensures '\n' !in "--- STATISTICS ---"
    ensures '\n' !in ""
  {
  }

  lemma HeaderPlain(d: ReportData, fmt: Formatter)
    requires PlainFormatter(fmt)
    requires forall i :: 0 <= i < |d.algorithms| ==> '\n' !in d.algorithms[i]
    ensures forall i :: 0 <= i < 15 ==> '\n' !in HeaderLines(d, fmt)[i]
  {
    var h := HeaderLines(d, fmt);
    forall i | 0 <= i < 15
      ensures '\n' !in h[i]
    {
      if i == 0 || i == 2 {
        BannerPlain();
      } else if i == 1 || i == 3 || i == 5 || i == 6 || i >= 12 {
        TitlesPlain();
      } else if i == 4 {
        assert '\n' !in fmt.date(d.timestamp);
      } else if i == 7 {
        JoinAvoids(d.algorithms, ", ", '\n');
      } else if i == 8 {
        NumberPlain(fmt, d.iterations);
      } else if i == 9 {
        NumberPlain(fmt, d.dataSize);
        Framed("Data Size: ", fmt.number(d.dataSize), " bytes");
      } else if i == 10 {
        NumberPlain(fmt, d.runs);
      } else if i == 11 {
        NumberPlain(fmt, |d.testInput|);
        Framed("Test Input Length: ", fmt.number(|d.testInput|), " characters");
      }
    }
  }

  lemma StatLinesPlain(s: AggregateStats, fmt: Formatter)
    requires PlainFormatter(fmt)
    requires '\n' !in s.algorithm
    ensures forall j :: 0 <= j < 11 ==> '\n' !in StatLines(s, fmt)[j]
  {
    var values := [s.minTime, s.avgTime, s.maxTime, fmt.sqrt(s.varianceTime), s.p50Time, s.p95Time, s.p99Time];
    forall j | 1 <= j < 8
      ensures '\n' !in StatLines(s, fmt)[j]
    {
      FixedPlain(fmt, values[j - 1], 2);
    }
    FixedPlain(fmt, s.avgMemory, 4);
    assert Plain(fmt.ops(s.opsPerSecond));
  }

  /** Splitting the text report at its line breaks gives back its lines. */
  lemma TextReportRoundTrip(d: ReportData, fmt: Formatter)
    requires PlainFormatter(fmt)
    requires forall i :: 0 <= i < |d.algorithms| ==> '\n' !in d.algorithms[i]
    requires forall k :: 0 <= k < |d.stats| ==> '\n' !in d.stats[k].algorithm
    ensures Split(Join(TextReportLines(d, fmt), "\n"), '\n') == TextReportLines(d, fmt)
  {
    TextLinesPlain(d, fmt);
    SplitJoin(TextReportLines(d, fmt), '\n');
  }

  // ------------------------------------------------------------ CSV report

  const CsvHeaders: seq<string> := [
    "Algorithm",
    "Min Time (ms)",
    "Avg Time (ms)",
    "Max Time (ms)",
    "Std Dev (ms)",
    "P50 (ms)",
    "P95 (ms)",
    "P99 (ms)",
    "Avg Memory (MB)",
    "Ops/Second"]

  /** The ten cells of one algorithm's row, in the order of the headers. */
  function CsvCells(s: AggregateStats, fmt: Formatter): (cells: seq<string>)
    ensures |cells| == |CsvHeaders|
  {
    [ s.algorithm,
      fmt.fixed(s.minTime, 2),
      fmt.fixed(s.avgTime, 2),
      fmt.fixed(s.maxTime, 2),
      fmt.fixed(fmt.sqrt(s.varianceTime), 2),
      fmt.fixed(s.p50Time, 2),
      fmt.fixed(s.p95Time, 2),
      fmt.fixed(s.p99Time, 2),
      fmt.fixed(s.avgMemory, 4),
      fmt.ops(s.opsPerSecond) ]
  }

  /** `"${cell}"`: the cell between double quotes, without escaping. */
  function Quote(cell: string): string
  {
    "\"" + cell + "\""
  }

  /** The reader's side of `Quote`: strip one pair of surrounding quotes. */
  function Unquote(cell: string): string
  {
    if |cell| >= 2 && cell[0] == '"' && cell[|cell| - 1] == '"' then cell[1..|cell| - 1] else cell
  }

  function QuotedRow(cells: seq<string>): string
  {
    Join(seq(|cells|, i requires 0 <= i < |cells| => Quote(cells[i])), ",")
  }

  /** The header line, then one quoted row per algorithm. */
  function CsvLines(d: ReportData, fmt: Formatter): (lines: seq<string>)
    ensures |lines| == 1 + |d.stats|
  {
    [Join(CsvHeaders, ",")] + seq(|d.stats|, k requires 0 <= k < |d.stats| => QuotedRow(CsvCells(d.stats[k], fmt)))
  }

  /** `generateCSVReport`: the lines joined with line breaks. */
  function CsvReport(d: ReportData, fmt: Formatter): string
  {
    Join(CsvLines(d, fmt), "\n")
  }

  /** How a reader takes one line apart: cells at commas, quotes stripped. */
  function ParseRow(line: string): (cells: seq<string>)
    ensures |cells| == |Split(line, ',')|
  {
    var parts := Split(line, ',');
    seq(|parts|, i requires 0 <= i < |parts| => Unquote(parts[i]))
  }

  /** How a reader takes the table apart: lines at line breaks, then each
      line into cells. */
  function ParseCsv(csv: string): (table: seq<seq<string>>)
    ensures |table| == |Split(csv, '\n')|
  {
    var lines := Split(csv, '\n');
    seq(|lines|, k requires 0 <= k < |lines| => ParseRow(lines[k]))
  }

  lemma UnquoteQuote(cell: string)
    ensures Unquote(Quote(cell)) == cell
  {
    var q := Quote(cell);
    assert q[1..|q| - 1] == cell;
  }

  /** A row of plain cells reads back as those cells. */
  lemma QuotedRowRoundTrip(cells: seq<string>)
    requires |cells| > 0
    requires forall i :: 0 <= i < |cells| ==> Plain(cells[i])
    ensures '\n' !in QuotedRow(cells)
    ensures ParseRow(QuotedRow(cells)) == cells
  {
    var quoted := seq(|cells|, i requires 0 <= i < |cells| => Quote(cells[i]));
    forall i | 0 <= i < |cells|
      ensures ',' !in quoted[i] && '\n' !in quoted[i]
      ensures Unquote(quoted[i]) == cells[i]
    {
      UnquoteQuote(cells[i]);
    }
    SplitJoin(quoted, ',');
    JoinAvoids(quoted, ",", '\n');
  }

  /** The header line is unquoted, and reads back as the headers. */
  lemma HeaderRoundTrip()
    ensures '\n' !in Join(CsvHeaders, ",")
    ensures ParseRow(Join(CsvHeaders, ",")) == CsvHeaders
  {
    HeadersPlain();
    SplitJoin(CsvHeaders, ',');
    JoinAvoids(CsvHeaders, ",", '\n');
    var parts := Split(Join(CsvHeaders, ","), ',');
    assert forall i :: 0 <= i < |parts| ==> Unquote(parts[i]) == parts[i];
  }

  lemma HeadersPlain()
    ensures forall i :: 0 <= i < |CsvHeaders| ==> Plain(CsvHeaders[i]) && CsvHeaders[i][0] != '"'
  {
  }

  /** The CSV table has the header line and one line per algorithm, and a
      reader gets back the headers and every algorithm's ten cells, so long
      as no cell holds a line break, a comma or a quote (the rows are not
      escaped). */
  lemma CsvRoundTrip(d: ReportData, fmt: Formatter)
    requires PlainFormatter(fmt)
    requires forall k :: 0 <= k < |d.stats| ==> Plain(d.stats[k].algorithm)
    ensures var table := ParseCsv(CsvReport(d, fmt));
      && |table| == 1 + |d.stats|
      && table[0] == CsvHeaders
      && forall k :: 0 <= k < |d.stats| ==> table[k + 1] == CsvCells(d.stats[k], fmt)
  {
    CsvSplitLines(d, fmt);
    ParseCsvLines(CsvReport(d, fmt), CsvLines(d, fmt));
    CsvRowsParse(d, fmt);
    CsvLineRoundTrip(d, fmt, 0);
  }

  /** The report splits back into its lines. */
  lemma CsvSplitLines(d: ReportData, fmt: Formatter)
    requires PlainFormatter(fmt)
    requires forall k :: 0 <= k < |d.stats| ==> Plain(d.stats[k].algorithm)
    ensures Split(CsvReport(d, fmt), '\n') == CsvLines(d, fmt)
  {
    CsvLinesUnbroken(d, fmt);
    SplitJoin(CsvLines(d, fmt), '\n');
  }

  lemma ParseCsvLines(csv: string, lines: seq<string>)
    requires Split(csv, '\n') == lines
    ensures |ParseCsv(csv)| == |lines|
    ensures forall k :: 0 <= k < |lines| ==> ParseCsv(csv)[k] == ParseRow(lines[k])
  {
  }

  lemma CsvLinesUnbroken(d: ReportData, fmt: Formatter)
    requires PlainFormatter(fmt)
    requires forall k :: 0 <= k < |d.stats| ==> Plain(d.stats[k].algorithm)
    ensures forall n :: 0 <= n < |CsvLines(d, fmt)| ==> '\n' !in CsvLines(d, fmt)[n]
  {
    forall n | 0 <= n < |CsvLines(d, fmt)|
      ensures '\n' !in CsvLines(d, fmt)[n]
    {
      CsvLineRoundTrip(d, fmt, n);
    }
  }

  lemma CsvRowsParse(d: ReportData, fmt: Formatter)
    requires PlainFormatter(fmt)
    requires forall k :: 0 <= k < |d.stats| ==> Plain(d.stats[k].algorithm)
    ensures forall k :: 0 <= k < |d.stats| ==> ParseRow(CsvLines(d, fmt)[k + 1]) == CsvCells(d.stats[k], fmt)
  {
    forall k | 0 <= k < |d.stats|
      ensures ParseRow(CsvLines(d, fmt)[k + 1]) == CsvCells(d.stats[k], fmt)
    {
      CsvLineRoundTrip(d, fmt, k + 1);
    }
  }

  /** Line `n` of the table has no line break and reads back as the headers
      (`n = 0`) or as the cells of algorithm `n - 1`. */
  lemma CsvLineRoundTrip(d: ReportData, fmt: Formatter, n: nat)
    requires PlainFormatter(fmt)
    requires n <= |d.stats|
    requires n > 0 ==> Plain(d.stats[n - 1].algorithm)
    ensures '\n' !in CsvLines(d, fmt)[n]
    ensures n == 0 ==> ParseRow(CsvLines(d, fmt)[n]) == CsvHeaders
    ensures n > 0 ==> ParseRow(CsvLines(d, fmt)[n]) == CsvCells(d.stats[n - 1], fmt)
  {
    if n == 0 {
      HeaderRoundTrip();
    } else {
      assert CsvLines(d, fmt)[n] == QuotedRow(CsvCells(d.stats[n - 1], fmt));
      CsvCellsPlain(d.stats[n - 1], fmt);
      QuotedRowRoundTrip(CsvCells(d.stats[n - 1], fmt));
    }
  }

  lemma CsvCellsPlain(s: AggregateStats, fmt: Formatter)
    requires PlainFormatter(fmt)
    requires Plain(s.algorithm)
    ensures forall i :: 0 <= i < |CsvHeaders| ==> Plain(CsvCells(s, fmt)[i])
  {
    var values := [s.minTime, s.avgTime, s.maxTime, fmt.sqrt(s.varianceTime), s.p50Time, s.p95Time, s.p99Time];
    forall i | 1 <= i < 8
      ensures Plain(CsvCells(s, fmt)[i])
    {
      FixedPlain(fmt, values[i - 1], 2);
    }
    FixedPlain(fmt, s.avgMemory, 4);
    assert Plain(fmt.ops(s.opsPerSecond));
  }

  // ----------------------------------------------------------- JSON report

  datatype Configuration = Configuration(
    algorithms: seq<string>,
    iterations: int,
    dataSize: int,
    runs: int,
    testInputLength: nat)

  /** The object `generateJSONReport` serialises. */
  datatype JsonReport = JsonReport(
    timestamp: string,
    configuration: Configuration,
    statistics: seq<AggregateStats>)

  /** `generateJSONReport` before `JSON.stringify`: the configuration with
      the input replaced by its length (`testInput?.length || 0`), and the
      statistics as they are. */
  function JsonReportOf(d: ReportData): (j: JsonReport)
    ensures j.statistics == d.stats
    ensures j.timestamp == d.timestamp
    ensures j.configuration == Configuration(d.algorithms, d.iterations, d.dataSize, d.runs, |d.testInput|)
    ensures j.configuration.testInputLength == 0 <==> d.testInput == ""
  {
    JsonReport(
      d.timestamp,
      Configuration(d.algorithms, d.iterations, d.dataSize, d.runs, |d.testInput|),
      d.stats)
  }

  /** The text report's header and the JSON configuration describe the same
      run: the timestamp, the algorithms, the iteration count, the data size
      and the number of runs. */
  lemma ConfigurationAgrees(d: ReportData, fmt: Formatter)
    ensures var json := JsonReportOf(d);
      var lines := TextReportLines(d, fmt);
      && lines[4] == "Generated: " + fmt.date(json.timestamp)
      && lines[7] == "Algorithms: " + Join(json.configuration.algorithms, ", ")
      && lines[8] == "Iterations: " + fmt.number(json.configuration.iterations)
      && lines[9] == "Data Size: " + fmt.number(json.configuration.dataSize) + " bytes"
      && lines[10] == "Number of Runs: " + fmt.number(json.configuration.runs)
  {
    var header := HeaderLines(d, fmt);
    var lines := TextReportLines(d, fmt);
    assert lines[..15] == header;
  }

  /** The three reports describe the same run: the text report's input line
      shows the JSON input length (or random data when it is zero), and the
      text report's blocks, the CSV rows and the JSON statistics list the
      same algorithms in the same order. */
  lemma ReportsAgree(d: ReportData, fmt: Formatter)
    requires PlainFormatter(fmt)
    requires forall k :: 0 <= k < |d.stats| ==> Plain(d.stats[k].algorithm)
    ensures var json := JsonReportOf(d);
      var lines := TextReportLines(d, fmt);
      var table := ParseCsv(CsvReport(d, fmt));
      && (json.configuration.testInputLength == 0 ==> lines[11] == "Test Input: Random Data")
      && (json.configuration.testInputLength > 0 ==>
            lines[11] == "Test Input Length: " + fmt.number(json.configuration.testInputLength) + " characters")
      && |table| == 1 + |json.statistics|
      && forall k :: 0 <= k < |json.statistics| ==>
           && lines[15 + 11 * k] == "Algorithm: " + json.statistics[k].algorithm
           && table[k + 1][0] == json.statistics[k].algorithm
  {
    TextReportLayout(d, fmt);
    InputLineMeaning(d, fmt);
    CsvRoundTrip(d, fmt);
    var lines := TextReportLines(d, fmt);
    forall k | 0 <= k < |d.stats|
      ensures lines[15 + 11 * k] == "Algorithm: " + d.stats[k].algorithm
    {
      assert lines[15 + 11 * k + 0] == StatLines(d.stats[k], fmt)[0];
    }
  }
}
