# bank-eod-processor: a Dafny model of the end-of-day reconciliation core

bank-eod-processor reads an input table of bank accounts ("Before Eod": id,
name, age, balance, previous balance, average balance, free transfers) and a
template output table ("After Eod", eleven columns including four audit
columns "No 1/2a/2b/3 Thread-No"). It produces the output table after an
end-of-day pass. Each input data row becomes a record that travels through a
pipeline of worker pools:

Parser → AverageCalculator → BenefitCalculator → BonusDistributor → Writer.

The Writer formats the record into the record's output row.

This project models:

- **Preprocessing** (`processor.go`, `Reconciler`). `validateHeaders`
  checks a header row. `preProcessRows` checks that neither table is empty and
  that both headers match. It then indexes the template's data rows by id, with
  the last row winning. Finally it appends one synthesized eleven-column row
  for every input id the template lacks. The model has a pure specification
  (`HeaderCheck`, `TemplateIndex`, `AppendMissing`, `PreProcess`). It also has
  the imperative loops, proved equal to that specification (`ValidateHeaders`,
  `IndexTemplate`, `AppendMissingRows`, `PreProcessRows`). Template rows are
  `array<string>`s, and the same arrays are returned.
- **The record and its stages** (`pipeline/*.go`, `parser.go`, `writer.go`).
  `EODRowData` is a class whose fields the stages update in place. Each
  stage's `Execute` is a method, specified by a function on the record's value
  fields (`RowState`): `ParseStep`, `AverageStep`, `BenefitStep`,
  `BonusStep` and `WriteRow`. Each `Execute` returns where Go would send the
  record: the next stage, or the record's finish sink.
- **Go semantics the core relies on.** `int` is int64: `strconv.Atoi` has a
  range error, `+=` wraps around, and `/` truncates toward zero. The model
  also covers `strconv.Atoi` and `strconv.Itoa`, and the `sync.WaitGroup`
  counter.
- **ProcessSlice as a sequential loop** (`Processor`). After preprocessing,
  data row k (0-based) becomes a record with `Index` k. The record's output
  row is the array its id resolves to. The record runs through the stages as
  `main.go` wires them, and the writer finishes it. The pure counterpart is
  `Process`. `ProcessorProperties` proves what the table looks like
  afterwards.

Which worker of each pool handles a record is not decided by the program. It
is the parameter `schedule: nat -> Workers`, and worker ids are at least 1
because the pool numbers its goroutines from 1.

The average is computed from the parsed balance before the benefit and bonus
stages change it, because that is the order in which the stages are chained
(`cmd/bank-eod-processor/main.go:30-33`).
So balance 99 with previous balance 200 gives average 149 and final balance
109 (`FifthTestRecord`).

## Model

| member | source | states |
|---|---|---|
| GoInt.Wrap | pipeline/benefit_calculator.go:30 | the result is an int64 congruent to the exact sum modulo 2^64, and equal to it when the sum fits |
| GoInt.Quo | pipeline/average_calculator.go:24 | the quotient is truncated toward zero: the remainder has the sign of the dividend and is smaller than the divisor |
| Strconv.Atoi | parser.go:33 | success yields an int64; failure yields the syntax or range error text for that input; the empty string is a syntax error |
| Strconv.AtoiSucceeds | parser.go:33 | Atoi succeeds iff the text is an optional sign followed by one or more decimal digits whose signed value is an int64, and then returns exactly that signed value |
| Strconv.AtoiRange | parser.go:33 | a sign and one or more digits whose signed value lies outside int64 fails with the range error quoting the input |
| Strconv.AtoiSyntaxError | parser.go:33-37 | a non-digit after the sign, with the digits before it still within uint64, is a syntax error quoting the input |
| Strconv.AtoiBadStart | parser.go:33-37 | text whose first character is neither a digit nor a sign is a syntax error |
| Strconv.AtoiBad | parser_test.go:57 | Atoi("BAD") fails with the syntax error for "BAD" |
| Strconv.EscapeChar | parser.go:33-35 | a quote, a backslash or an ASCII control character becomes a backslash escape, any other character stays as it is, and no control character is left |
| Strconv.Escape | parser.go:33-35 | the escaped text is at least as long as the input, equals it when nothing needs an escape, and holds no control character |
| Strconv.GoQuote | parser.go:33-35 | the input's escaped text between double quotes, with no control character inside |
| Strconv.EscapeCharPrefixFree | parser.go:33-35 | no character's escape is a prefix of another's, so escaped text splits back in one way only |
| Strconv.EscapeInjective | parser.go:33-35 | different texts escape to different texts |
| Strconv.GoQuoteInjective | parser.go:33-35 | the quoted text in an Atoi error determines the input it came from |
| Strconv.GoQuoteQuoteExample | parser.go:33-35 | the text 5" is quoted as "5\"" |
| Strconv.GoQuoteTabExample | parser.go:33-35 | a tab followed by 1 is quoted as "\t1" |
| Strconv.AtoiQuoteExample | parser.go:33-35 | Atoi of 5" fails with a syntax error whose text carries the escaped quote |
| Strconv.AtoiTabExample | parser.go:33-35 | Atoi of a tab followed by 1 fails with a syntax error whose text carries the \t escape |
| Strconv.Itoa | writer.go:48-54 | the decimal text is non-empty, starts with '-' exactly for negative values, never with '+', and has no leading zero except for 0 itself |
| Strconv.Digits | writer.go:48 | the digits of a natural number: all decimal digits, a single digit exactly below 10, and a leading '0' only for 0 itself |
| Strconv.DecimalValueOfDigits | writer.go:48 | reading Itoa's digits back as decimal gives the value |
| Strconv.AtoiItoa | parser.go:33-56 | for every int64, Atoi(Itoa(n)) succeeds with n: what the writer formats, the parser reads back |
| Pipeline.EODRowData.constructor | processor.go:141-146 | a freshly dispatched record has every number and marker at zero, no error, the given index, rows and an attached finish sink |
| Pipeline.OptimumParallelism | pipeline/pipeline.go:32-39 | never fewer than 4 workers and never fewer than the CPU count; exactly the CPU count when it is at least 4 |
| Pipeline.AverageStep | pipeline/average_calculator.go:22-24 | ThreadNo1 becomes the worker; the average is the truncated half of the int64 sum of previous and current balance; every other field is unchanged |
| Pipeline.BenefitStep | pipeline/benefit_calculator.go:25-31 | 100..150 sets 5 free transfers and ThreadNo2A; above 150 adds 25 and sets ThreadNo2B; below 100 changes nothing; at most one of 2A/2B changes |
| Pipeline.BonusStep | pipeline/bonus_distributor.go:27-30 | Index below 100 adds 10 and sets ThreadNo3; otherwise the record is unchanged |
| Pipeline.Forward | pipeline/average_calculator.go:25-29 | a stage sends the record to its next stage exactly when one is wired, and to the finish sink exactly when none is |
| Pipeline.AverageCalculator.constructor | pipeline/average_calculator.go:11-18 | the stage forwards exactly when a next stage was given |
| Pipeline.AverageCalculator.Execute | pipeline/average_calculator.go:22-30 | the record becomes AverageStep of its old values; it goes to next when wired, otherwise to its finish sink |
| Pipeline.BenefitCalculator.constructor | pipeline/benefit_calculator.go:11-18 | the stage forwards exactly when a next stage was given |
| Pipeline.BenefitCalculator.Execute | pipeline/benefit_calculator.go:24-37 | the record becomes BenefitStep of its old values; it goes to next when wired, otherwise to its finish sink |
| Pipeline.BonusDistributor.constructor | pipeline/bonus_distributor.go:15-22 | the stage forwards exactly when a next stage was given |
| Pipeline.BonusDistributor.Execute | pipeline/bonus_distributor.go:26-36 | the record becomes BonusStep of its old values; it goes to next when wired, otherwise to its finish sink |
| Parser.ParseFields | parser.go:33-60 | columns are parsed in the order balance, previous, free transfer, average; the first failing Atoi supplies the error; on success the four values are exactly what Atoi returned |
| Parser.ParseSucceeds | parser.go:33-60 | parsing succeeds iff the balance, previous balance, free transfer and average columns are all int64 decimal texts, and then yields their signed values |
| Parser.BadBalanceExample | parser_test.go:50-65 | the test row with "BAD" as balance fails with the syntax error for "BAD" |
| Parser.ParseStep | parser.go:33-60 | on failure only the error is set; on success only the four numbers are set; no audit marker ever changes |
| Parser.ParseRoute | parser.go:33-61 | the record goes on to the next stage iff all four Atoi calls succeed, otherwise to the finish sink |
| Parser.Execute | parser.go:31-62 | the record becomes ParseStep of its old values; it goes to next on success and to its finish sink on the first error |
| Parser.ParseFormattedRow | parser.go:33-60 | a row whose four numeric columns are Itoa texts of int64 values parses to exactly those values |
| Sync.WaitGroup.constructor | processor.go:135 | a new wait group counts zero |
| Sync.WaitGroup.Add | processor.go:138 | the counter grows by the given delta |
| Sync.WaitGroup.Done | writer.go:56 | the counter drops by one |
| Sync.WaitGroup.Wait | processor.go:148 | the wait is passed only with the counter at zero, and leaves it at zero |
| Writer.ErrorColumn | writer.go:34-44 | the error column is No 1 if ThreadNo1 is 0, else No 2a if ThreadNo2A is 0, else No 2b if ThreadNo2B is 0, else No 3 |
| Writer.WriteRow | writer.go:34-54 | an error writes its text into ErrorColumn and nothing else; success writes balance, average, free transfer and the four markers as decimal text into their columns; id, name, age and previous balance never change |
| Writer.Writer.constructor | writer.go:21-24 | the writer signals the given wait group |
| Writer.Writer.Execute | writer.go:32-57 | the record's output row becomes WriteRow of its old contents; the record's values are unchanged; the finish sink is detached; the wait group counts one completion |
| Writer.WriteRowIdempotent | writer.go:47-54 | writing the same record twice gives the row that writing it once gives |
| Writer.WrittenNumbersParseBack | writer.go:48-50 | on success, Atoi of the written balance, average and free transfer gives the record's values back |
| Writer.WriteSuccessExample | writer_test.go:50-52 | the test's successful record with markers 11/21/31/41 produces the expected output row, previous balance "100" kept |
| Writer.WriteErrorExample | writer_test.go:93 | the test's failed record with every marker set puts "an error" in the No 3 column only |
| Reconciler.ProcessError.Message | processor.go:167-171 | every error has a non-empty text, and a wrapped header error ends with the text of the error it wraps |
| Reconciler.FirstMismatch | processor.go:216-220 | the first position where the columns differ from the headers, with every earlier position equal |
| Reconciler.HeaderCheck | processor.go:212-222 | passes iff the expected header is a prefix of the row, so extra trailing columns are accepted; a short row gives ErrInvalidHeader; otherwise the error names the first mismatching header and its index |
| Reconciler.ValidateHeaders | processor.go:212-222 | the early-return scan returns exactly HeaderCheck |
| Reconciler.TemplateIndex | processor.go:181-185 | the last data row's id is always indexed at that row's position, so a repeated id maps to its last row |
| Reconciler.TemplateIndexSameIds | processor.go:182-185 | the index depends only on the id column: two tables with the same ids have the same index |
| Reconciler.TemplateIndexResolves | processor.go:182-185 | every indexed id maps to a data row (1 or more) that carries that id |
| Reconciler.TemplateIndexCovers | processor.go:182-185 | every template row's id is indexed, at that row or at a later one |
| Reconciler.TemplateIndexIsLast | processor.go:182-185 | when the template repeats an id, the index holds its last occurrence |
| Reconciler.TemplateIndexKeys | processor.go:182-185 | the index has exactly the ids of the template's data rows |
| Reconciler.SynthesizedRow | processor.go:195-202 | the appended row is 11 columns wide and carries the input row's id |
| Reconciler.AppendMissing | processor.go:190-206 | the table only grows at the back, appended rows are 11 wide, and already indexed ids keep their index |
| Reconciler.AppendMissingKeys | processor.go:191-205 | after the loop the index holds exactly the template ids plus the input ids |
| Reconciler.AppendMissingIndexes | processor.go:190-206 | the loop keeps the index equal to the last-occurrence index of the grown table |
| Reconciler.AppendMissingIsFirstNew | processor.go:191-205 | the appended rows are exactly the synthesized rows of the input rows whose id is new, in order of first appearance |
| Reconciler.FirstNewIds | processor.go:193 | the appended rows carry input ids not in the template, each id at most once |
| Reconciler.FirstNewCount | processor.go:193 | one row is appended per distinct input id not in the template |
| Reconciler.PreProcess | processor.go:156-208 | an empty input, then an empty template, then a bad input header, then a bad output header are reported in that order; success holds exactly when none applies, and then returns the indexed template extended by the append loop |
| Reconciler.PreProcessKeepsTemplate | processor.go:182-206 | the template, header included, is an unchanged prefix of the result, and every data row is at least 11 wide |
| Reconciler.PreProcessResolves | processor.go:190-206 | every input id maps to a data row of the result that carries that id |
| Reconciler.PreProcessAppends | processor.go:190-206 | the result is the template plus the synthesized first-new rows, and their count is the number of distinct input ids missing from the template |
| Reconciler.AppendMissingNothingNew | processor.go:191-205 | when every input id is already indexed, the append loop changes neither the index nor the table |
| Reconciler.PreProcessUniqueIds | processor.go:190-206 | if the template's data rows carry distinct ids, so do the data rows of the result |
| Reconciler.PreProcessRowPerId | processor.go:190-206 | with distinct template ids, every input id is carried by exactly one data row of the result, the one its index names |
| Reconciler.NewSynthesizedRow | processor.go:195-202 | a fresh array holding the synthesized row |
| Reconciler.IndexTemplate | processor.go:181-185 | the index loop returns TemplateIndex of the template |
| Reconciler.AppendMissingRows | processor.go:190-206 | the append loop returns AppendMissing of its start; the given arrays stay a prefix; appended arrays are fresh and distinct |
| Reconciler.PreProcessRows | processor.go:156-208 | returns PreProcess's error, or its index and table, with the template's own arrays as prefix |
| Processor.RunRecord | cmd/bank-eod-processor/main.go:30-33 | the record keeps its Index; a parse failure reaches the writer with only the error set; a parsed record reaches it without error and with ThreadNo1 set |
| Processor.Records | processor.go:140-146 | one record per data row, dispatched with its 0-based position as Index |
| Processor.DispatchAll | processor.go:140-147 | writing the records keeps the number of rows and every row's width |
| Processor.PreProcessRoutable | processor.go:144 | after preprocessing, every input row's id resolves to a writable data row |
| Processor.Process | processor.go:130-150 | a preprocessing error is returned as is; otherwise the result has one row per preprocessed row |
| Processor.DispatchRecord | cmd/bank-eod-processor/main.go:30-33 | the stages chained as main.go wires them leave WriteRow of RunRecord in the output row and count one completion |
| Processor.DispatchRow | processor.go:141-146 | dispatching data row i advances the table from the first i writes to the first i+1 |
| Processor.DispatchRows | processor.go:140-147 | the loop leaves the table as all records written in input order, with the wait group back at zero |
| Processor.EODProcessor.constructor | cmd/bank-eod-processor/main.go:30-33 | the average and benefit stages forward, and the bonus stage finishes the record |
| Processor.EODProcessor.Dispatch | processor.go:135-148 | after the wait, the table is DispatchAll of the preprocessed table |
| Processor.EODProcessor.ProcessSlice | processor.go:130-150 | returns Process's error, with every given row untouched, or the table Process computes, whose prefix is the given arrays |
| ProcessorProperties.DispatchAllUntouched | processor.go:140-147 | a row that no record resolves to is left as it was |
| ProcessorProperties.DispatchAllKeepsColumns | writer.go:47-54 | writing the records never changes a column the writer does not write |
| ProcessorProperties.DispatchAllKeepsIds | processor.go:140-147 | writing the records keeps every row's id |
| ProcessorProperties.DispatchAllWrites | processor.go:144 | with distinct slots, each record's slot holds that record written over the slot's original row |
| ProcessorProperties.PreProcessSlotsDistinct | processor.go:193-204 | distinct input ids resolve to distinct output rows |
| ProcessorProperties.ProcessWritesEachRow | processor.go:140-146 | with distinct input ids, each input row's resolved output row carries its id and holds its record, Index k-1, written over the preprocessed row |
| ProcessorProperties.ProcessRowPerId | processor.go:130-150 | with distinct template ids, every input id appears in exactly one data row of the returned table |
| ProcessorProperties.DispatchAllTwice | processor.go:140-147 | with distinct slots, writing the same records again over the finished table gives it back |
| ProcessorProperties.ProcessedIsTemplate | processor.go:156-208 | the returned table is a valid template for the same input: preprocessing it finds every input id and appends nothing |
| ProcessorProperties.ProcessRerun | processor.go:130-150 | running the job again over its own result, with the same input and the same workers, returns that result unchanged |
| ProcessorProperties.RunRecordUnmarked | cmd/bank-eod-processor/main.go:30-33 | which workers handle a record changes only its four markers |
| ProcessorProperties.WriteRowAgain | writer.go:47-54 | writing a record that differs only in its markers over a written row leaves every non-audit column as it was |
| ProcessorProperties.ProcessRerunOtherWorkers | processor.go:130-150 | running the job again over its own result with other workers succeeds, keeps the row count, and changes at most the four audit columns |
| ProcessorProperties.FirstNewAllNew | processor.go:191-205 | with distinct input ids none of which is known, every input row is appended, in order |
| ProcessorProperties.PreProcessWithoutTemplate | processor.go:102-112 | without a template file and with distinct input ids, preprocessing returns the header followed by every input row synthesized, in order |
| ProcessorProperties.ProcessWithoutTemplate | processor.go:102-112 | without a template file the job succeeds whenever the input header is valid, returning the header and one row per distinct input id |
| ProcessorProperties.ProcessWithoutTemplateRow | processor.go:102-112 | without a template file and with distinct input ids, output row k is input row k synthesized and then written |
| ProcessorProperties.ProcessKeepsUnnamedRows | processor_test.go:97-98 | the header and every template row whose id is not in the input come back unchanged |
| ProcessorProperties.ProcessLength | processor.go:190-206 | the result has the template's rows plus one per distinct input id missing from it |
| ProcessorProperties.RecordOutcome | cmd/bank-eod-processor/main.go:30-33 | without overflow: the average of the parsed balances, the benefit rule and the bonus on the parsed balance, and a marker set exactly where a stage changed the record |
| ProcessorProperties.ParseErrorInNo1 | writer.go:36-37 | a row that does not parse only gets the parse error in its No 1 column |
| ProcessorProperties.FifthTestRecord | processor_test.go:50 | balance 99, previous 200, free 2 at Index 4 reach the writer as average 149, balance 109, free 2 |
| ProcessorProperties.FifthTestRow | processor_test.go:67 | that record written over its template row gives the expected row except the unwritten previous-balance column, which keeps "100" |

## Left out

- Worker pools (`pipeline/workerpool.go`): goroutines, buffered channels and the nil sentinel that stops a worker are not modelled. Records run one after another, and the worker each pool assigns is the `schedule` parameter.
- Concurrency on a duplicated input id: two records then write one output row at the same time, which is a data race in Go. The model gives the sequential last-writer outcome, and the end-to-end lemmas `ProcessWritesEachRow` and `PreProcessSlotsDistinct` require distinct input ids.
- `Process` and `ProcessFile` (processor.go:70-125): opening, creating and closing files, and `encoding/csv` reading and writing, are I/O, and an open or read error other than a missing template file is not modelled. Two of their rules are modelled: every csv row is as wide as its header (the `RowsAsWideAsHeader` precondition), and a missing template file is replaced by the header-only table `[AfterEodHeader]` (processor.go:102-112), whose outcome `ProcessWithoutTemplate` and `ProcessWithoutTemplateRow` state.
- `cmd/bank-eod-processor/main.go`: flag parsing and logging. Only the order in which it chains the stages is modelled, in `EODProcessor.constructor`.
- Panics on rows shorter than the columns read: these rows are excluded by preconditions (`RowsAsWideAsHeader`), as `encoding/csv` would.
- `runtime.NumCPU` is the parameter `cpu` of `OptimumParallelism`; pool sizes are not otherwise modelled.
- The map capacity hint of `preProcessRows` (processor.go:174-181) and the slice capacity hint of `ProcessFile` (processor.go:111) have no observable effect and are not modelled.
- Strconv.Atoi: the error text quotes the input with Go's backslash escapes for `"`, `\` and the ASCII control characters (`GoQuote`), but leaves non-ASCII characters that Go's `unicode.IsPrint` rejects unescaped, where Go writes a `\u` or `\U` escape.
- Processor.EODProcessor.ProcessSlice: Go returns `outputRows` as a slice that may share the caller's backing array; the model returns the row arrays and states only that the caller's arrays are its prefix.
- Processor.EODProcessor.ProcessSlice: requires the template's row arrays to be pairwise distinct (`Distinct(outputRows)`), so template rows that share one backing array, which Go accepts, are excluded. Every table the program builds meets this: rows read by `encoding/csv`, the header-only table for a missing template file, and the test literals.
- ProcessorProperties.ProcessRerun: requires distinct input ids (otherwise the outcome depends on the data race above) and an 11-column template header, because appended rows are 11 wide, and with a wider header `encoding/csv` would reject the result when it is read back for the second run.
- ProcessorProperties.ProcessRerunOtherWorkers: requires distinct input ids and an 11-column template header, for the same reasons as ProcessRerun.
- ProcessorProperties.ProcessRowPerId: requires the template's data rows to carry distinct ids; with a repeated template id the earlier copy stays in the table as well.
- Sync.WaitGroup.Wait: does not block; in the sequential model every record is written before the wait, so it requires the counter to be zero already.
- The finish sink (`FinishChannel`) is a flag: `Execute` methods require it to be attached when they would send to it, and the writer detaches it.
- The expected table at processor_test.go:67 shows "200" in the previous-balance column, but the writer never writes that column, so the row keeps the template's "100" (`FifthTestRow`). The test does not compare that column.
