/**
 * ProcessSlice of processor.go as a sequential loop: after preprocessing,
 * one record per input data row is dispatched through
 * Parser -> AverageCalculator -> BenefitCalculator -> BonusDistributor and
 * finished by the Writer, which fills the row's pre-resolved output slot.
 *
 * Which worker of each pool handled the k-th record is not decided by the
 * program; it is the parameter `schedule(k)`.
 */
module Processor {
  import opened Wrappers
  import opened Columns
  import opened Pipeline
  import Parser
  import opened Writer
  import opened Sync
  import opened Reconciler

  /** The worker of each pool that handled one record. */
  datatype Workers = Workers(parser: WorkerId, average: WorkerId, benefit: WorkerId, bonus: WorkerId, writer: WorkerId)

  /**
   * The record state the Writer receives for the data row at 0-based position
   * `index`: the parse, and only when it succeeds the three calculation stages.
   */
  function RunRecord(index: int, row: seq<string>, w: Workers): (s: RowState)
    requires |row| >= InputWidth
    ensures s.index == index
    ensures Parser.ParseFields(row).Failure? ==>
              s == Dispatched(index).(error := Some(Parser.ParseFields(row).error))
    ensures Parser.ParseFields(row).Success? ==> s.error.None? && s.threadNo1 == w.average
  {
    var parsed := Parser.ParseStep(Dispatched(index), row);
    if Parser.ParseFields(row).Success? then
      BonusStep(BenefitStep(AverageStep(parsed, w.average), w.benefit), w.bonus)
    else
      parsed
  }

  /** Every data row is wide enough and its id resolves to a data row of the table wide enough to be written. */
  predicate Routable(rows: seq<seq<string>>, ids: map<string, int>, data: seq<seq<string>>) {
    forall k :: 0 <= k < |data| ==>
      && |data[k]| >= InputWidth
      && data[k][InId] in ids
      && 1 <= ids[data[k][InId]] < |rows|
      && |rows[ids[data[k][InId]]]| >= OutputWidth
  }

  /** The output slot of data row k. */
  function Slot(ids: map<string, int>, data: seq<seq<string>>, k: nat): int
    requires k < |data| && |data[k]| >= 1 && data[k][InId] in ids
  {
    ids[data[k][InId]]
  }

  /**
   * records[k] is the state data row k reaches the Writer with. The trigger
   * keeps the stage functions folded until a record is actually computed.
   */
  predicate RecordsOf(records: seq<RowState>, data: seq<seq<string>>, schedule: nat -> Workers)
    requires forall k :: 0 <= k < |data| ==> |data[k]| >= InputWidth
  {
    && |records| == |data|
    && forall k {:trigger RunRecord(k, data[k], schedule(k))} :: 0 <= k < |data| ==>
         records[k] == RunRecord(k, data[k], schedule(k))
  }

  /** The record state each data row reaches the Writer with, the row's 0-based position as Index. */
  function Records(data: seq<seq<string>>, schedule: nat -> Workers): (records: seq<RowState>)
    requires forall k :: 0 <= k < |data| ==> |data[k]| >= InputWidth
    ensures |records| == |data|
    ensures RecordsOf(records, data, schedule)
  {
    seq(|data|, k requires 0 <= k < |data| => RunRecord(k, data[k], schedule(k)))
  }

  /**
   * The table after the first n data rows were written, in input order:
   * each writes its record into its own slot, so a later row with the same
   * id overwrites.
   */
  function DispatchAll(rows: seq<seq<string>>, ids: map<string, int>, data: seq<seq<string>>,
                       records: seq<RowState>, n: nat): (t: seq<seq<string>>)
    requires n <= |data| == |records| && Routable(rows, ids, data)
    ensures |t| == |rows|
    ensures forall j :: 0 <= j < |rows| ==> |t[j]| == |rows[j]|
  {
    if n == 0 then rows
    else
      var t := DispatchAll(rows, ids, data, records, n - 1);
      var slot := Slot(ids, data, n - 1);
      t[slot := WriteRow(t[slot], records[n - 1])]
  }

  /**
   * tables[n] is the table after the first n data rows were written. The
   * trigger keeps the writes folded until a table is compared with DispatchAll.
   */
  predicate TablesOf(tables: seq<seq<seq<string>>>, rows: seq<seq<string>>, ids: map<string, int>,
                     data: seq<seq<string>>, records: seq<RowState>)
    requires |data| == |records| && Routable(rows, ids, data)
  {
    && |tables| == |data| + 1
    && forall n {:trigger DispatchAll(rows, ids, data, records, n)} :: 0 <= n <= |data| ==>
         tables[n] == DispatchAll(rows, ids, data, records, n)
  }

  /** Every intermediate table of DispatchAll, from none to all data rows written. */
  function Tables(rows: seq<seq<string>>, ids: map<string, int>, data: seq<seq<string>>,
                  records: seq<RowState>): (tables: seq<seq<seq<string>>>)
    requires |data| == |records| && Routable(rows, ids, data)
    ensures TablesOf(tables, rows, ids, data, records)
  {
    seq(|data| + 1, n requires 0 <= n <= |data| => DispatchAll(rows, ids, data, records, n))
  }

  /** Preprocessing makes every input data row routable. */
  lemma PreProcessRoutable(inputRows: seq<seq<string>>, outputRows: seq<seq<string>>)
    requires RowsAsWideAsHeader(inputRows) && RowsAsWideAsHeader(outputRows)
    requires PreProcess(inputRows, outputRows).Success?
    ensures var r := PreProcess(inputRows, outputRows).value;
            Routable(r.rows, r.ids, inputRows[1..])
  {
    var r := PreProcess(inputRows, outputRows).value;
    PreProcessKeepsTemplate(inputRows, outputRows);
    forall k | 0 <= k < |inputRows| - 1
      ensures inputRows[1..][k][InId] in r.ids && 1 <= r.ids[inputRows[1..][k][InId]] < |r.rows|
    {
      PreProcessResolves(inputRows, outputRows, k + 1);
    }
  }

  /** ProcessSlice on values: the preprocessing error, or the table after every data row was dispatched. */
  function Process(inputRows: seq<seq<string>>, outputRows: seq<seq<string>>, schedule: nat -> Workers)
    : (r: Result<seq<seq<string>>, ProcessError>)
    requires RowsAsWideAsHeader(inputRows) && RowsAsWideAsHeader(outputRows)
    ensures PreProcess(inputRows, outputRows).Failure? ==>
              r == Failure(PreProcess(inputRows, outputRows).error)
    ensures PreProcess(inputRows, outputRows).Success? ==>
              r.Success? && |r.value| == |PreProcess(inputRows, outputRows).value.rows|
  {
    match PreProcess(inputRows, outputRows)
    case Failure(e) => Failure(e)
    case Success(pre) =>
      PreProcessRoutable(inputRows, outputRows);
      var data := inputRows[1..];
      Success(DispatchAll(pre.rows, pre.ids, data, Records(data, schedule), |data|))
  }

  /** The stage chain of main.go: average and benefit forward, the bonus stage finishes. */
  predicate Chained(average: AverageCalculator, benefit: BenefitCalculator, bonus: BonusDistributor) {
    average.hasNext && benefit.hasNext && !bonus.hasNext
  }

  /** Runs one record through the stages as wired in main.go and finishes it with the writer. */
  method DispatchRecord(index: int, row: seq<string>, outputRow: array<string>, w: Workers,
                        average: AverageCalculator, benefit: BenefitCalculator,
                        bonus: BonusDistributor, writer: Writer)
    requires |row| >= InputWidth && outputRow.Length >= OutputWidth
    requires Chained(average, benefit, bonus)
    requires writer.waitGroup.counter >= 1
    modifies outputRow, writer.waitGroup
    ensures outputRow[..] == WriteRow(old(outputRow[..]), RunRecord(index, row, w))
    ensures writer.waitGroup.counter == old(writer.waitGroup.counter) - 1
  {
    var record := new EODRowData(index, row, outputRow);
    var route := Parser.Execute(w.parser, record);
    if route == ToNext {
      route := average.Execute(w.average, record);
    }
    if route == ToNext {
      route := benefit.Execute(w.benefit, record);
    }
    if route == ToNext {
      route := bonus.Execute(w.bonus, record);
    }
    writer.Execute(w.writer, record);
  }

  /**
   * The body of ProcessSlice's loop for data row i: builds the record around
   * the row's resolved output array and runs it to completion, which advances
   * the table from DispatchAll(.., i) to DispatchAll(.., i + 1).
   */
  method DispatchRow(i: nat, data: seq<seq<string>>, rows: seq<array<string>>, ids: map<string, int>,
                     ghost template: seq<seq<string>>, schedule: nat -> Workers, ghost records: seq<RowState>,
                     ghost tables: seq<seq<seq<string>>>,
                     average: AverageCalculator, benefit: BenefitCalculator,
                     bonus: BonusDistributor, writer: Writer)
    requires i < |data| && Routable(template, ids, data) && |rows| == |template| && Distinct(rows)
    requires RecordsOf(records, data, schedule) && TablesOf(tables, template, ids, data, records)
    requires Contents(rows) == tables[i]
    requires Chained(average, benefit, bonus)
    requires writer.waitGroup.counter >= 1
    modifies rows[ids[data[i][InId]]], writer.waitGroup
    ensures Contents(rows) == tables[i + 1]
    ensures writer.waitGroup.counter == old(writer.waitGroup.counter) - 1
  {
    assert tables[i] == DispatchAll(template, ids, data, records, i);
    assert tables[i + 1] == DispatchAll(template, ids, data, records, i + 1);
    var row := data[i];
    var outputRow := rows[ids[row[InId]]];
    ghost var before := Contents(rows);
    ghost var slot := ids[row[InId]];
    assert before[slot] == outputRow[..];
    assert records[i] == RunRecord(i, row, schedule(i));
    DispatchRecord(i, row, outputRow, schedule(i), average, benefit, bonus, writer);
    assert forall j :: 0 <= j < |rows| && j != slot ==> rows[j] != outputRow;
    assert Contents(rows) == before[slot := WriteRow(before[slot], records[i])];
  }

  /**
   * The loop of ProcessSlice: one record per data row, with its 0-based
   * position as Index, each finished by the writer before the next starts.
   */
  method DispatchRows(rows: seq<array<string>>, ids: map<string, int>, data: seq<seq<string>>,
                      schedule: nat -> Workers, ghost records: seq<RowState>, ghost tables: seq<seq<seq<string>>>,
                      average: AverageCalculator, benefit: BenefitCalculator,
                      bonus: BonusDistributor, writer: Writer)
    requires Routable(Contents(rows), ids, data) && Distinct(rows)
    requires RecordsOf(records, data, schedule) && TablesOf(tables, Contents(rows), ids, data, records)
    requires Chained(average, benefit, bonus)
    requires writer.waitGroup.counter == |data|
    modifies rows, writer.waitGroup
    ensures Contents(rows) == tables[|data|]
    ensures writer.waitGroup.counter == 0
  {
    ghost var template := Contents(rows);
    assert tables[0] == DispatchAll(template, ids, data, records, 0);
    for i := 0 to |data|
      invariant writer.waitGroup.counter == |data| - i
      invariant Contents(rows) == tables[i]
    {
      DispatchRow(i, data, rows, ids, template, schedule, records, tables, average, benefit, bonus, writer);
    }
  }

  /** The processor and its pipeline, the parser's chain of calculation stages. */
  class EODProcessor {
    const average: AverageCalculator
    const benefit: BenefitCalculator
    const bonus: BonusDistributor

    /** The pipeline is wired as main.go wires it. */
    predicate Wired() {
      Chained(average, benefit, bonus)
    }

    /** Builds the stages back to front as main.go does. */
    constructor ()
      ensures Wired()
    {
      bonus := new BonusDistributor(false);
      benefit := new BenefitCalculator(true);
      average := new AverageCalculator(true);
    }

    /**
     * The dispatch part of ProcessSlice: a wait group expecting one completion
     * per data row, the writer that signals it, the loop, and the wait.
     */
    method Dispatch(rows: seq<array<string>>, ids: map<string, int>, data: seq<seq<string>>,
                    schedule: nat -> Workers)
      requires Wired()
      requires Routable(Contents(rows), ids, data) && Distinct(rows)
      modifies rows
      ensures Contents(rows) == DispatchAll(old(Contents(rows)), ids, data, Records(data, schedule), |data|)
    {
      var waitGroup := new WaitGroup();
      var writer := new Writer(waitGroup);
      waitGroup.Add(|data|);
      ghost var records := Records(data, schedule);
      ghost var tables := Tables(Contents(rows), ids, data, records);
      DispatchRows(rows, ids, data, schedule, records, tables, average, benefit, bonus, writer);
      waitGroup.Wait();
    }

    /**
     * ProcessSlice: preprocessing, then the dispatch of every data row into its
     * resolved output row. A failure leaves the given rows untouched.
     */
    method ProcessSlice(inputRows: seq<seq<string>>, outputRows: seq<array<string>>, schedule: nat -> Workers)
      returns (r: Result<seq<array<string>>, ProcessError>)
      requires Wired()
      requires RowsAsWideAsHeader(inputRows) && RowsAsWideAsHeader(Contents(outputRows))
      requires Distinct(outputRows)
      modifies outputRows
      ensures var spec := Process(inputRows, old(Contents(outputRows)), schedule);
              && r.Failure? == spec.Failure?
              && (r.Failure? ==> r.error == spec.error)
              && (r.Success? ==> Contents(r.value) == spec.value)
      ensures r.Failure? ==> forall k :: 0 <= k < |outputRows| ==> outputRows[k][..] == old(outputRows[k][..])
      ensures r.Success? ==> |r.value| >= |outputRows| && r.value[..|outputRows|] == outputRows
    {
      var pre := PreProcessRows(inputRows, outputRows);
      if pre.Failure? {
        return Failure(pre.error);
      }
      var ids, rows := pre.value.0, pre.value.1;
      PreProcessRoutable(inputRows, Contents(outputRows));
      assert forall k :: 0 <= k < |rows| ==> rows[k] in outputRows || fresh(rows[k]) by {
        forall k | 0 <= k < |rows| ensures rows[k] in outputRows || fresh(rows[k]) {
          if k < |outputRows| {
            assert rows[k] == rows[..|outputRows|][k];
          }
        }
      }
      Dispatch(rows, ids, inputRows[1..], schedule);
      r := Success(rows);
    }
  }
}
