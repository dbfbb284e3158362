# Cryptographic signature benchmark: a verified model of its core

The benchmark repeatedly generates a key pair, signs a buffer and verifies the
signature, using the platform's Web Crypto provider, for two algorithm
families (ED25519 and ECDSA P-256). It times each round with the monotonic
clock, estimates the memory each round touched, and summarises the samples
into mean, extremes, variance and nearest-rank percentiles. The dashboard
merges the records of several runs per algorithm, picks the fastest algorithm,
and draws an execution-time chart. The report generator writes the
statistics as plain text, CSV or JSON.

The Dafny project models this core:

- `common.dfy` (module `Common`): bytes, `Option`, `Result`, and the ways a
  computation throws. Also `Math.ceil` of a quotient, and `join`/`split` on
  strings with split proved to undo join.
- `statistics.dfy` (module `Statistics`): `calculateStatistics`. It holds
  the sum, mean, population variance, an insertion sort proved sorted and a
  permutation, and the nearest-rank percentile index.
- `platform.dfy` (module `Platform`): the services the engine calls but
  cannot see into, as classes whose state the engine's methods change:
  - the clock (`performance.now()`);
  - the crypto provider (`generateKey`, `sign`, `verify`);
  - the random source (`crypto.getRandomValues`, which fills an array in place);
  - the progress callback.

  Each answers its n-th call by a function fixed when it is built, so the
  engine's contracts can say exactly which readings, bytes and signatures a
  run used.
- `engine.dfy` (module `BenchmarkEngine`): `generateDataFromInput`, one timed
  round, the runner loops for both algorithms, and the `runBenchmark`
  orchestrator with its two nested loops. A round fails exactly when the
  provider rejects one of its three calls. The records say which call's
  answer each signature is.
- `dashboard.dfy` (module `Dashboard`):
  - the grouping of records by algorithm and the per-algorithm statistics;
  - operations per second and the winner;
  - the "No results yet" guard;
  - the input-repetition note and the "Total operations performed" figure.
- `time_chart.dfy` (module `TimeChart`): flattening the records into points,
  merging them by iteration number, and the first 50 rows the chart draws.
- `report.dfy` (module `ReportGenerator`): the text, CSV and JSON reports,
  each with a reader's side (`Split`, `ParseCsv`) proved to recover what was
  written.

The code does not clamp percentile indices. The model keeps it that way and
proves in `Statistics.PercentileIndicesInRange` that no clamp is needed:
`floor(0.99·n) < n` for every `n > 0`. The code's `p50 ≤ p95 ≤ p99` also holds
by that lemma.

## Model

| member | source | states |
|---|---|---|
| Common.CeilDiv | lib/benchmark-engine.ts:243 | `Math.ceil(a / b)` for `b > 0`: the result times `b` reaches `a`, one less does not |
| Common.CeilDivIsLeast | lib/benchmark-engine.ts:243 | any `q` with `q·b ≥ a` is at least the ceiling: the ceiling is the least such count |
| Common.SplitJoin | lib/report-generator.tsx:40 | splitting a joined text at the one-character separator gives back the pieces, when no piece holds the separator |
| Common.SplitAppend | lib/report-generator.tsx:40 | a separator followed by separator-free text adds exactly one piece to the split |
| Common.JoinAvoids | lib/report-generator.tsx:40 | a character in neither the pieces nor the separator is not in the joined text |
| Common.SplitFree | lib/report-generator.tsx:40 | text without the separator splits into itself alone |
| Common.RepeatChar | lib/report-generator.tsx:5 | `"=".repeat(80)`: exactly `n` copies of the character |
| Statistics.Insert | lib/benchmark-engine.ts:46 | inserting into a sorted list keeps it sorted and adds exactly that element |
| Statistics.SortAscending | lib/benchmark-engine.ts:46 | `[...times].sort((a, b) => a - b)`: sorted ascending and a permutation of the input |
| Statistics.MinOf | components/benchmark-dashboard.tsx:70 | `Math.min(...times)`: an element of the list, no greater than any element |
| Statistics.MaxOf | components/benchmark-dashboard.tsx:71 | `Math.max(...times)`: an element of the list, no smaller than any element |
| Statistics.PercentileIndicesInRange | lib/benchmark-engine.ts:56-58 | the p50, p95 and p99 indices are ordered and all below `n`, so the unclamped indexing never reads past the end |
| Statistics.CalculateStatistics | lib/benchmark-engine.ts:45-60 | fails (the first `reduce` throws) exactly for an empty list; otherwise yields the summary |
| Statistics.SummaryMeaning | lib/benchmark-engine.ts:45-60 | for a non-empty list the summary describes it: min and max are the extreme samples, `min ≤ avg ≤ max`, `min ≤ p50 ≤ p95 ≤ p99 ≤ max`, each percentile is a sample, variance ≥ 0 |
| Statistics.SortedEnds | lib/benchmark-engine.ts:53-54 | the first and last elements of the sorted copy are the least and greatest samples |
| Statistics.SortedPercentiles | lib/benchmark-engine.ts:56-58 | the p50, p95 and p99 entries of the sorted copy are samples, ordered between its first and last entries |
| Statistics.SumBounds | lib/benchmark-engine.ts:47 | a sum of `n` values in `[lo, hi]` lies in `[n·lo, n·hi]` |
| Statistics.MeanBetween | lib/benchmark-engine.ts:47 | the mean of values in `[lo, hi]` lies in `[lo, hi]` |
| Statistics.SquaredDeviationsNonNegative | lib/benchmark-engine.ts:48 | the sum of squared deviations is never negative |
| Statistics.ExtremesAgree | components/benchmark-dashboard.tsx:70-71 | `Math.min`/`Math.max` of the samples equal the ends of the sorted copy |
| Statistics.MeanNonNegative | lib/benchmark-engine.ts:113 | the mean of non-negative memory estimates is non-negative |
| Platform.Clock.Now | lib/benchmark-engine.ts:87 | returns the next reading and advances the reading count by one |
| Platform.CryptoProvider.GenerateKey | lib/benchmark-engine.ts:88 | answers with the scripted key pair or a rejection; logs no message |
| Platform.CryptoProvider.Sign | lib/benchmark-engine.ts:93 | answers with the scripted signature or a rejection; a signature is logged with its message |
| Platform.CryptoProvider.Verify | lib/benchmark-engine.ts:98 | answers with the scripted outcome or a rejection; logs nothing |
| Platform.RandomSource.GetRandomValues | lib/benchmark-engine.ts:42 | refuses (a `QuotaExceededError`) exactly a buffer longer than 65536 bytes, leaving buffer and stream as they were; otherwise fills the buffer in place with the next bytes of the stream and advances the stream by its length |
| Platform.ProgressSink.Report | lib/benchmark-engine.ts:107-109 | appends the event to what the caller has been told |
| BenchmarkEngine.ParseLabelInverse | lib/benchmark-engine.ts:242-248 | an identifier selects a runner exactly when it equals that algorithm's label (`"ED25519"`, `"ECDSA"`) |
| BenchmarkEngine.LabelInjective | lib/benchmark-engine.ts:116 | the two runners label their records differently |
| BenchmarkEngine.TiledUnfold | lib/benchmark-engine.ts:37-39 | filling `|e| + n` bytes is one copy of the encoding followed by filling `n` bytes |
| BenchmarkEngine.TiledTruncate | lib/benchmark-engine.ts:37-39 | the first `m` bytes of a longer fill are the fill of `m` bytes |
| BenchmarkEngine.TiledWhole | lib/benchmark-engine.ts:37-39 | filling `k·|e|` bytes gives exactly `k` copies of the encoding |
| BenchmarkEngine.TiledIsRepetitionPrefix | lib/benchmark-engine.ts:37-39 | the filled buffer is the first `size` bytes of `ceil(size / |e|)` copies of the encoding |
| BenchmarkEngine.TiledPrefixOfEncoding | lib/benchmark-engine.ts:37-39 | a buffer no longer than the encoding is its prefix |
| BenchmarkEngine.DataFailure | lib/benchmark-engine.ts:34-42 | the input throws exactly for a negative size (the array-length error) or for random data of more than 65536 bytes (the quota error) |
| BenchmarkEngine.GenerateDataFromInput | lib/benchmark-engine.ts:29-43 | throws exactly when `DataFailure` says so, with that error and nothing drawn; else a fresh buffer of that size holding the tiled encoding for custom input, or the next random bytes (drawn only then) |
| BenchmarkEngine.CustomInputDeterministic | lib/benchmark-engine.ts:31-41 | with custom input the buffer does not depend on the random source |
| BenchmarkEngine.InputDetailsOf | lib/benchmark-engine.ts:72-80 | custom exactly when the input is non-empty, which is exactly when the encoding is non-empty; `"Random data"` otherwise; lengths and size copied |
| BenchmarkEngine.IterationTimeNonNegative | lib/benchmark-engine.ts:87-101 | with a monotonic clock a round's time (three elapsed intervals) is non-negative |
| BenchmarkEngine.MemoryEstimate | lib/benchmark-engine.ts:104 | the memory estimate is non-negative |
| BenchmarkEngine.TimeKeyGeneration | lib/benchmark-engine.ts:87-89 | fails exactly when the provider rejects this call, and then with the rejection; otherwise returns the provider's key pair and the interval between two consecutive readings; nothing is signed |
| BenchmarkEngine.TimeSigning | lib/benchmark-engine.ts:92-94 | fails exactly when the provider rejects this call; otherwise returns the provider's signature and the interval between two consecutive readings, with the message and signature logged |
| BenchmarkEngine.TimeVerification | lib/benchmark-engine.ts:97-99 | fails exactly when the provider rejects this call; otherwise the interval between two consecutive readings, the verdict discarded |
| BenchmarkEngine.TimeRound | lib/benchmark-engine.ts:86-101 | key generation, signing and verification in a row: fails, with a rejection, exactly when the provider rejects the key generation at call `c`, the signing at `c+1` or the verification at `c+2`; otherwise three calls are made, the time is the sum of the three intervals over six readings, and the signature is the signer's answer for the generated key, logged with its message |
| BenchmarkEngine.RunIteration | lib/benchmark-engine.ts:82-105 | one round: an input error throws before anything happens; with a valid input the round fails exactly when the provider rejects one of its three calls, and then with a rejection, so an accepting provider always completes it; on success the data buffer, time = key + sign + verify intervals over six readings, the signature is the signer's answer for the generated key and that buffer, memory = (data + signature bytes) / 2^20, three provider calls, the message and signature logged |
| BenchmarkEngine.Round | lib/benchmark-engine.ts:83-109 | one pass of the loop body with its progress call `(i+1, total)`: an input error leaves everything unchanged; with a valid input it fails exactly when the provider rejects round `i` of the schedule, and otherwise extends the record of the first `i` rounds by its sample |
| BenchmarkEngine.TracedStep | lib/benchmark-engine.ts:82-110 | one completed round extends the recorded samples, messages, random draws and progress events by exactly that round's |
| BenchmarkEngine.SignedStep | lib/benchmark-engine.ts:86-99 | one accepted round adds three provider calls and, as its signature, the signer's answer for its buffer and key |
| BenchmarkEngine.RecordedStep | lib/benchmark-engine.ts:82-110 | one completed, accepted round extends the whole record (samples, calls, messages, signatures, random draws, progress) by exactly that round's |
| BenchmarkEngine.RecordedSupported | lib/benchmark-engine.ts:87-89 | a record of at least one completed round shows the provider generated a key for the algorithm, so it is not an unsupported algorithm |
| BenchmarkEngine.CollectSamples | lib/benchmark-engine.ts:82-110 | the sampling loop: `iterations` rounds recorded in order with progress `(i+1, iterations)`; no rounds for `iterations ≤ 0`; a failing round aborts with its error; with a valid input it fails exactly when the provider rejects some round `k < iterations` (round `k` signing the `k`-th buffer with calls `3k`, `3k+1`, `3k+2`), so an accepting provider completes every round; on success round `k`'s signature is the signer's answer at call `3k+1` |
| BenchmarkEngine.RunAlgorithmBenchmark | lib/benchmark-engine.ts:62-129 | the runner: with no rounds the statistics' `reduce` throws; a failing round's error is the input's or a rejection; with a valid input it fails exactly when the provider rejects some round, so it fails for an algorithm whose key generation is always rejected and succeeds with an accepting provider; its record carries its label, the samples, the statistics of the samples, the mean memory and the input details |
| BenchmarkEngine.TimesNonNegative | lib/benchmark-engine.ts:87-101 | every time sample the runner records from a monotonic clock is non-negative |
| BenchmarkEngine.Block | lib/benchmark-engine.ts:233-248 | an unknown identifier yields no invocation; a label yields `runs` invocations (none for `runs ≤ 0`) of its algorithm |
| BenchmarkEngine.Invoke | lib/benchmark-engine.ts:242-245 | one dispatch: the record for `ceil(iterations/runs)` rounds, progress forwarded under the algorithm's label; it succeeds for a positive count, a valid input and an accepting provider, and fails for an algorithm whose key generation is always rejected |
| BenchmarkEngine.SupportedConcat | lib/benchmark-engine.ts:233-250 | appending the invocations of a label whose algorithm is supported keeps every invocation's algorithm supported |
| BenchmarkEngine.UnsupportedRejected | lib/benchmark-engine.ts:233-251 | a benchmark that fails only with its first invocation's error and succeeds only when every algorithm is supported fails with a rejection when a listed algorithm is unsupported and the input is valid |
| BenchmarkEngine.OrchestratorTraceConcat | lib/benchmark-engine.ts:236-240 | the progress of two invocation lists in a row is the progress of each, concatenated |
| BenchmarkEngine.RecordsForConcat | lib/benchmark-engine.ts:250 | appending records of a later invocation list keeps every record matched to its invocation |
| BenchmarkEngine.BlockGrows | lib/benchmark-engine.ts:233-250 | one more run of a label adds one invocation, one matched record and one invocation's progress |
| BenchmarkEngine.RunIdentifier | lib/benchmark-engine.ts:233-251 | the inner loop: unknown identifiers produce nothing; otherwise one record per run, or the first run's error; a positive count, a valid input and an accepting provider always give the records; a label whose algorithm's key generation is always rejected fails when `runs > 0` |
| BenchmarkEngine.RunBenchmark | lib/benchmark-engine.ts:222-255 | `runBenchmark`: nothing to run gives an empty list; it fails with the empty-`reduce` error exactly when something is to run and `ceil(iterations/runs) ≤ 0`, with the array-length error exactly when something is to run with a positive count and a negative size, and with the quota error exactly when something is to run with a positive count and more than 65536 random bytes; any failure is the first invocation's error; an accepting provider makes it succeed whenever the input is valid; with a valid input and a positive count it fails with a rejection when some listed algorithm's key generation is always rejected, and on success every invoked algorithm is supported; on success one record per invocation in (identifier, run) order, each with `ceil(iterations/runs)` samples and the run's input details, and the progress forwarded in that order |
| BenchmarkEngine.InvocationsCount | lib/benchmark-engine.ts:232-251 | an algorithm runs `runs` times per occurrence of its label in the list |
| BenchmarkEngine.BlockRuns | lib/benchmark-engine.ts:233-248 | one identifier yields `runs` invocations of an algorithm when it is that algorithm's label, and none otherwise |
| BenchmarkEngine.InvocationsLength | lib/benchmark-engine.ts:232-251 | the number of invocations is `runs` times the number of recognised identifiers |
| BenchmarkEngine.UnknownIdsRunNothing | lib/benchmark-engine.ts:246-247 | a list of unrecognised identifiers runs nothing (skipped, not an error) |
| BenchmarkEngine.SamplesPerAlgorithm | lib/benchmark-engine.ts:232-251 | the samples gathered for an algorithm are its run count times the per-run iteration count |
| BenchmarkEngine.RecordsAreShaped | lib/benchmark-engine.ts:232-251 | records matched to invocations carry each invocation's label and exactly the per-run sample count |
| BenchmarkEngine.SamplesCoverRequest | lib/benchmark-engine.ts:243 | per occurrence of its label an algorithm gets `runs·ceil(iterations/runs)` samples, never fewer than `iterations` |
| BenchmarkEngine.SplitCoversIterations | lib/benchmark-engine.ts:243 | `iterations ≤ runs·ceil(iterations/runs) < iterations + runs`, with equality exactly when `runs` divides `iterations` |
| BenchmarkEngine.DefaultSplit | lib/benchmark-engine.ts:243 | the default 1000 iterations over 5 runs: 200 per run, 1000 in all; 1000 over 3 runs: 334 per run, 1002 in all |
| Dashboard.GroupByAlgorithm | components/benchmark-dashboard.tsx:44-58 | the grouping loop: keys are the labels in first-appearance order; each group concatenates that label's samples, memories and records in record order |
| Dashboard.LabelsComplete | components/benchmark-dashboard.tsx:47-54 | a label is a key exactly when some record carries it |
| Dashboard.LabelsUnique | components/benchmark-dashboard.tsx:48-54 | no label is a key twice |
| Dashboard.LabelsGrow | components/benchmark-dashboard.tsx:47-54 | the keys after a prefix of the records are a prefix of the final keys: insertion order is first appearance |
| Dashboard.GroupOfAbsent | components/benchmark-dashboard.tsx:55-57 | a label no record carries has an empty group |
| Dashboard.GroupOfConcat | components/benchmark-dashboard.tsx:55-57 | grouping two record lists in a row concatenates their groups |
| Dashboard.GroupOfMembers | components/benchmark-dashboard.tsx:55-57 | a group's records are exactly the records with that label, and its sample count is their total sample count |
| Dashboard.GroupOfSingle | components/benchmark-dashboard.tsx:55-57 | a group holding one record holds exactly that record's samples and memories |
| Dashboard.GroupOfEmpty | components/benchmark-dashboard.tsx:55-57 | a label with no records has no samples and no memories |
| Dashboard.OpsPerSecond | components/benchmark-dashboard.tsx:77 | `1000 / avg`: infinite exactly when the mean time is 0, otherwise the number whose product with the mean is 1000 |
| Dashboard.Summarize | components/benchmark-dashboard.tsx:60-80 | a group's entry fails exactly when its samples or memories are empty (a `reduce` throws); otherwise its times agree with `calculateStatistics` of the merged samples, memory is their mean, ops/s is `1000/avg`, and the records are kept |
| Dashboard.MergedOrdering | components/benchmark-dashboard.tsx:61-75 | the merged statistics describe the merged samples (the ordering and range facts of `SummaryMeaning`) |
| Dashboard.SingleRunAgrees | components/benchmark-dashboard.tsx:60-80 | for an algorithm run once, the dashboard's figures equal the engine record's |
| Dashboard.SummarizeEach | components/benchmark-dashboard.tsx:60-80 | one entry per key, or the empty-`reduce` error |
| Dashboard.BuildStats | components/benchmark-dashboard.tsx:44-80 | the grouping followed by the per-group statistics |
| Dashboard.AggregateSucceeds | components/benchmark-dashboard.tsx:60-80 | records from the engine never make the statistics throw, and there is one entry per label |
| Dashboard.EngineRecordsAggregate | components/benchmark-dashboard.tsx:44-80 | for engine records entry `k` is the `k`-th label in first-appearance order, its statistics are those of the label's merged samples, it holds all of the label's samples, and no label appears twice |
| Dashboard.GroupNonEmpty | components/benchmark-dashboard.tsx:55-56 | a label carried by a record with samples has a non-empty group |
| Dashboard.WinnerIndex | components/benchmark-dashboard.tsx:82 | the reduce keeps the earlier entry on ties: an entry with the least mean time, and the first such |
| Dashboard.Winner | components/benchmark-dashboard.tsx:82 | the reduce throws exactly on an empty list; otherwise the winner is one of the entries |
| Dashboard.WinnerIsFirstMinimum | components/benchmark-dashboard.tsx:82 | the first entry with the least mean time is the winner, whichever it is |
| Dashboard.RenderAsWritten | components/benchmark-dashboard.tsx:34-82 | the screen as written: no data shows "No results yet"; an empty record list passes the guard and the winner's `reduce` throws |
| Dashboard.ZeroRunsBreakRender | components/benchmark-dashboard.tsx:34-82 | with `runs ≤ 0` the engine returns no records, and the dashboard as written throws on them |
| Dashboard.Render | components/benchmark-dashboard.tsx:34-42 | the corrected guard: an empty record list also shows "No results yet"; otherwise it is the screen as written |
| Dashboard.RenderNeverFails | components/benchmark-dashboard.tsx:34-82 | for any engine output the corrected screen renders; with records it shows one entry per label and a winner no slower than any entry |
| Dashboard.RepetitionNote | components/benchmark-dashboard.tsx:268-273 | the note appears exactly for custom input shorter than the data size; its count is the least number of copies covering the size (unbounded for an empty encoding) |
| Dashboard.RepetitionNoteMatchesTiling | components/benchmark-dashboard.tsx:268-273 | for engine input details the note appears exactly when the input was repeated; its count is at least 2 and the buffer is the prefix of that many copies |
| Dashboard.PerformedPerAlgorithm | lib/benchmark-engine.ts:243 | the rounds actually run per algorithm per listing: between `iterations` and `iterations + runs - 1`, none for `runs ≤ 0` |
| Dashboard.DisplayedTotalOverstates | components/benchmark-dashboard.tsx:561 | 1000 iterations over 5 runs: 5000 shown, 1000 performed |
| Dashboard.DisplayedTotalBound | components/benchmark-dashboard.tsx:561 | the displayed total is never below the rounds performed per algorithm, and equals it only when `runs = 1` or `iterations = 1` |
| TimeChart.SeriesOf | components/benchmark-dashboard.tsx:162-167 | the chart receives each record's label and samples, in record order |
| TimeChart.PointsOf | components/time-chart.tsx:14-17 | one point per sample |
| TimeChart.ChartData | components/time-chart.tsx:13-18 | the flattened points number the total samples |
| TimeChart.ChartDataIndex | components/time-chart.tsx:13-18 | the `j`-th sample of record `r` becomes point `j + 1` of that record's label with the rounded value, placed after all earlier records' points |
| TimeChart.TotalSamplesPrefix | components/time-chart.tsx:13-18 | the points of the first `r` records are at most all points, and one more record adds its sample count |
| TimeChart.FindRow | components/time-chart.tsx:23 | `find`: the first row with that iteration number, or none when no row has it |
| TimeChart.MergeFromConcat | components/time-chart.tsx:21-29 | merging two point lists in a row is merging their concatenation |
| TimeChart.MergeByIteration | components/time-chart.tsx:21-29 | the merge loop computes the left fold of the merge step over the points |
| TimeChart.MergeKeepsKeys | components/time-chart.tsx:22-29 | merging never removes, renumbers or empties a row |
| TimeChart.FindInShape | components/time-chart.tsx:23 | in rows numbered 1, 2, … the row for iteration `it` is at `it - 1`, or absent beyond the end |
| TimeChart.StepInShape | components/time-chart.tsx:22-28 | a point writes its value into its iteration's row, appending it when it is the next one, and keeps the rows numbered 1, 2, … |
| TimeChart.MergeSeriesPrefix | components/time-chart.tsx:21-29 | merging a prefix of one record's points sets that label in the first rows and nothing else |
| TimeChart.MergeSeries | components/time-chart.tsx:21-29 | merging one record's points sets its label in rows `1..|times|` and extends the rows to that length |
| TimeChart.MergedShape | components/time-chart.tsx:13-29 | the merged data has one row per iteration `1..L`, `L` the longest record, in ascending order, and row `i` is column `i` of the records |
| TimeChart.ColumnBeyond | components/time-chart.tsx:21-29 | beyond the longest record no row has values, so no row is created there |
| TimeChart.ColumnKeys | components/time-chart.tsx:13-29 | row `i` has a value for exactly the labels of records with more than `i` samples |
| TimeChart.ColumnLastWriter | components/time-chart.tsx:24-25 | the value in row `i` for a label is that of its last record reaching row `i`: later runs overwrite earlier ones |
| TimeChart.Visible | components/time-chart.tsx:35 | `slice(0, 50)`: a prefix of at most 50 rows |
| TimeChart.ChartRows | components/time-chart.tsx:13-35 | the rows handed to the chart: the first 50 merged rows |
| TimeChart.VisibleRows | components/time-chart.tsx:13-35 | the chart shows iterations `1..min(50, L)`, row `i` holding, for each label reaching it, the value of that label's last record |
| ReportGenerator.HeaderLines | lib/report-generator.tsx:4-20 | the report opens with fifteen lines |
| ReportGenerator.StatLines | lib/report-generator.tsx:23-33 | eleven lines per algorithm |
| ReportGenerator.GenerateTextReport | lib/report-generator.tsx:3-41 | the text report is its lines (header, pushed blocks, footer) joined with line breaks |
| ReportGenerator.PushStats | lib/report-generator.tsx:22-34 | the `forEach` appends every algorithm's block in order |
| ReportGenerator.PushStat | lib/report-generator.tsx:23-33 | the eleven pushes append exactly one algorithm's block |
| ReportGenerator.StatBlocksLayout | lib/report-generator.tsx:22-34 | line `11k + j` of the blocks is line `j` of algorithm `k`'s block |
| ReportGenerator.TextReportLayout | lib/report-generator.tsx:4-39 | `18 + 11n` lines: banners at both ends, the title, "END OF REPORT", the input line at 11, and algorithm `k`'s block at `15 + 11k` |
| ReportGenerator.InputLineMeaning | lib/report-generator.tsx:16 | "Test Input: Random Data" exactly when the input is empty; otherwise the input's length |
| ReportGenerator.TextLinesPlain | lib/report-generator.tsx:3-40 | no line of the report holds a line break when no label or number does |
| ReportGenerator.HeaderPlain | lib/report-generator.tsx:4-20 | no header line holds a line break |
| ReportGenerator.StatLinesPlain | lib/report-generator.tsx:23-33 | no line of an algorithm's block holds a line break |
| ReportGenerator.BlocksPlain | lib/report-generator.tsx:22-34 | no line of any block holds a line break |
| ReportGenerator.TextReportRoundTrip | lib/report-generator.tsx:40 | splitting the text report at line breaks gives back its lines |
| ReportGenerator.CsvCells | lib/report-generator.tsx:57-68 | one cell per header |
| ReportGenerator.CsvLines | lib/report-generator.tsx:70 | the header line and one line per algorithm |
| ReportGenerator.UnquoteQuote | lib/report-generator.tsx:70 | stripping the quotes recovers a cell |
| ReportGenerator.QuotedRowRoundTrip | lib/report-generator.tsx:70 | a row of cells free of line breaks, commas and quotes reads back as those cells |
| ReportGenerator.HeaderRoundTrip | lib/report-generator.tsx:44-55 | the unquoted header line reads back as the ten headers |
| ReportGenerator.CsvLineRoundTrip | lib/report-generator.tsx:57-70 | line `n` reads back as the headers (`n = 0`) or as algorithm `n - 1`'s cells |
| ReportGenerator.CsvSplitLines | lib/report-generator.tsx:70 | the CSV text splits back into its lines |
| ReportGenerator.CsvRoundTrip | lib/report-generator.tsx:43-73 | a reader gets back the headers and every algorithm's ten cells, in order, when no label holds a comma, quote or line break (cells are not escaped) |
| ReportGenerator.CsvCellsPlain | lib/report-generator.tsx:57-68 | every cell of a row is free of commas, quotes and line breaks when the label is |
| ReportGenerator.LabelsArePlain | lib/benchmark-engine.ts:116 | the engine's labels hold no comma, quote or line break, so its rows always read back |
| ReportGenerator.JsonReportOf | lib/report-generator.tsx:75-89 | timestamp, algorithms, iterations, data size, runs and statistics pass through unchanged, and the input is replaced by its length (0 exactly for an empty input) |
| ReportGenerator.ConfigurationAgrees | lib/report-generator.tsx:9-15 | the text header's timestamp, algorithm, iteration, size and run lines show the JSON configuration's values |
| ReportGenerator.ReportsAgree | lib/report-generator.tsx:3-89 | the three reports describe the same run: the text input line matches the JSON input length, and the text blocks, CSV rows and JSON statistics name the same algorithms in the same order |

## Left out

- The cryptography: key generation, signing and verification are scripted answers of the provider. The verification outcome is never inspected by the code, and the model does not inspect it either.
- Array allocation limits: `new Uint8Array(size)` for a size too large to allocate is not modelled. Only negative sizes and the random source's 65536-byte quota make the input throw.
- The `await`s: the model runs each call to completion in program order. Nothing in the core runs concurrently.
- Floating point:
  - times, memory and statistics are exact reals;
  - `Math.floor(n·0.95)` is modelled as `n·95/100` in integers;
  - `Math.sqrt` (the standard deviation) is a parameter of the report formatter, and the statistics keep the variance.
- `toFixed`, number interpolation and `toLocaleString` are formatter functions given to the reports. The chart's `Number.parseFloat(time.toFixed(2))` is the `round` parameter of the chart functions.
- `TextEncoder`: the encoded bytes are a parameter. They are tied to the input only by "empty exactly when the input is empty".
- String lengths: `length` counts UTF-16 code units, and the model counts characters.
- Object keys: JavaScript objects keyed by label are modelled as maps. Object key ordering for integer-like labels, and inherited keys such as `__proto__`, are not modelled. Neither can arise from the engine's two labels.
- TimeChart.MergedShape: a record label equal to `"iteration"` would overwrite the iteration number of a merged row. The model keeps labels and the iteration number apart, so that clash is not modelled.
- `JSON.stringify`: the JSON report is modelled as the value it serialises.
- The PDF report, the download and the export panel are left out, because they are rendering and browser I/O.
- The configuration panel, the loading and progress views and the JSX markup are left out: they contain no logic beyond what is modelled. One exception: the panel's `parseInt(...) || 0` can yield `runs = 0` or negative sizes, so every such input is allowed here.
- BenchmarkEngine.Invoke: it restates only what the orchestrator needs of the runner. The per-round rejection schedule is stated on `BenchmarkEngine.RunAlgorithmBenchmark` and `BenchmarkEngine.CollectSamples`.
- BenchmarkEngine.RunIdentifier: a rejection is stated to fail it only for an algorithm whose key generation is always rejected. Which call of which run is rejected is stated per runner invocation, on `BenchmarkEngine.RunAlgorithmBenchmark`.
- BenchmarkEngine.RunBenchmark: the same holds across identifiers. It fails with a rejection when a listed algorithm is unsupported, and the exact call schedule across invocations is not stated.
- BenchmarkEngine.RunAlgorithmBenchmark: the non-negativity of its time samples is not in its contract. It is stated separately by `BenchmarkEngine.TimesNonNegative`, under the assumption of a monotonic clock.

## Findings

| source | as written | input that shows it | evidently intended | confidence | as-written member | corrected member |
|---|---|---|---|---|---|---|
| components/benchmark-dashboard.tsx:34-82 | the guard only checks that `benchmarkData` exists; an empty list passes it and `stats.reduce` without an initial value throws | `runs = 0` (the config panel yields it for an empty field): `runBenchmark` returns `[]` | show "No results yet" for an empty result list | not executed | Dashboard.ZeroRunsBreakRender | Dashboard.RenderNeverFails |
| components/benchmark-dashboard.tsx:561 | "Total operations performed" shows `iterations · runs` | `iterations = 1000, runs = 5`: 5000 shown, 1000 rounds run per algorithm | the rounds actually run per algorithm, `runs · ceil(iterations / runs)` | not executed | Dashboard.DisplayedTotalOverstates | Dashboard.PerformedPerAlgorithm |
