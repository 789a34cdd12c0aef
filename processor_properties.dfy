/**
 * What ProcessSlice promises about the whole table: each input data row's
 * outcome lands in its own output row, template rows the input does not name
 * come back untouched, and the outcome of one record in closed form.
 */
module ProcessorProperties {
  import opened Wrappers
  import opened GoInt
  import opened Columns
  import opened Pipeline
  import Parser
  import opened Writer
  import opened Reconciler
  import opened Processor
  import opened Strconv

  /** No two data rows share an output slot. */
  predicate SlotsDistinct(rows: seq<seq<string>>, ids: map<string, int>, data: seq<seq<string>>)
    requires Routable(rows, ids, data)
  {
    forall a, b :: 0 <= a < b < |data| ==> Slot(ids, data, a) != Slot(ids, data, b)
  }

  /** No two data rows carry the same id. */
  predicate DistinctIds(data: seq<seq<string>>)
    requires NonEmptyRows(data)
  {
    forall a, b :: 0 <= a < b < |data| ==> data[a][InId] != data[b][InId]
  }

  /** A row that none of the first n data rows resolves to is left as it was. */
  lemma {:induction false} DispatchAllUntouched(rows: seq<seq<string>>, ids: map<string, int>, data: seq<seq<string>>,
                                                records: seq<RowState>, n: nat, j: nat)
    requires Routable(rows, ids, data) && n <= |data| == |records| && j < |rows|
    requires forall k :: 0 <= k < n ==> Slot(ids, data, k) != j
    ensures DispatchAll(rows, ids, data, records, n)[j] == rows[j]
    decreases n
  {
    if n > 0 {
      DispatchAllUntouched(rows, ids, data, records, n - 1, j);
    }
  }

  /** With distinct slots, data row k's slot holds its record written over the slot's original row. */
  lemma {:induction false} DispatchAllWrites(rows: seq<seq<string>>, ids: map<string, int>, data: seq<seq<string>>,
                                             records: seq<RowState>, n: nat, k: nat)
    requires Routable(rows, ids, data) && SlotsDistinct(rows, ids, data)
    requires k < n <= |data| == |records|
    ensures DispatchAll(rows, ids, data, records, n)[Slot(ids, data, k)] ==
              WriteRow(rows[Slot(ids, data, k)], records[k])
    decreases n
  {
    var slot := Slot(ids, data, k);
    var last := Slot(ids, data, n - 1);
    if n - 1 == k {
      DispatchAllUntouched(rows, ids, data, records, k, slot);
    } else {
      DispatchAllWrites(rows, ids, data, records, n - 1, k);
      assert last != slot;
    }
  }

  /** Preprocessing gives distinct input ids distinct output slots. */
  lemma PreProcessSlotsDistinct(inputRows: seq<seq<string>>, outputRows: seq<seq<string>>)
    requires RowsAsWideAsHeader(inputRows) && RowsAsWideAsHeader(outputRows)
    requires PreProcess(inputRows, outputRows).Success?
    requires NonEmptyRows(inputRows[1..]) && DistinctIds(inputRows[1..])
    ensures var r := PreProcess(inputRows, outputRows).value;
            Routable(r.rows, r.ids, inputRows[1..]) && SlotsDistinct(r.rows, r.ids, inputRows[1..])
  {
    var r := PreProcess(inputRows, outputRows).value;
    var data := inputRows[1..];
    PreProcessRoutable(inputRows, outputRows);
    forall a, b | 0 <= a < b < |data| ensures Slot(r.ids, data, a) != Slot(r.ids, data, b) {
      PreProcessResolves(inputRows, outputRows, a + 1);
      PreProcessResolves(inputRows, outputRows, b + 1);
      assert data[a] == inputRows[a + 1] && data[b] == inputRows[b + 1];
    }
  }

  /**
   * With distinct input ids, the output row that data row k (1-based in the
   * input table) resolves to carries its id and holds the record dispatched
   * with Index k - 1, written over the row preprocessing left there.
   */
  lemma ProcessWritesEachRow(inputRows: seq<seq<string>>, outputRows: seq<seq<string>>,
                             schedule: nat -> Workers, k: nat)
    requires RowsAsWideAsHeader(inputRows) && RowsAsWideAsHeader(outputRows)
    requires PreProcess(inputRows, outputRows).Success?
    requires NonEmptyRows(inputRows[1..]) && DistinctIds(inputRows[1..])
    requires 1 <= k < |inputRows|
    ensures var pre := PreProcess(inputRows, outputRows).value;
            var out := Process(inputRows, outputRows, schedule).value;
            && inputRows[k][InId] in pre.ids
            && var slot := pre.ids[inputRows[k][InId]];
               && 1 <= slot < |out| == |pre.rows|
               && |pre.rows[slot]| >= OutputWidth
               && out[slot][OutId] == inputRows[k][InId]
               && out[slot] == WriteRow(pre.rows[slot], RunRecord(k - 1, inputRows[k], schedule(k - 1)))
  {
    var pre := PreProcess(inputRows, outputRows).value;
    var data := inputRows[1..];
    var records := Records(data, schedule);
    PreProcessSlotsDistinct(inputRows, outputRows);
    PreProcessResolves(inputRows, outputRows, k);
    assert data[k - 1] == inputRows[k];
    assert records[k - 1] == RunRecord(k - 1, inputRows[k], schedule(k - 1));
    assert Process(inputRows, outputRows, schedule).value == DispatchAll(pre.rows, pre.ids, data, records, |data|);
    DispatchAllWrites(pre.rows, pre.ids, data, records, |data|, k - 1);
  }

  /**
   * The header row, and every template row whose id no input data row carries,
   * comes back unchanged.
   */
  lemma ProcessKeepsUnnamedRows(inputRows: seq<seq<string>>, outputRows: seq<seq<string>>,
                                schedule: nat -> Workers, j: nat)
    requires RowsAsWideAsHeader(inputRows) && RowsAsWideAsHeader(outputRows)
    requires PreProcess(inputRows, outputRows).Success?
    requires NonEmptyRows(inputRows[1..])
    requires j < |outputRows| && (j == 0 || outputRows[j][OutId] !in IdsOf(inputRows[1..]))
    ensures Process(inputRows, outputRows, schedule).value[j] == outputRows[j]
  {
    var pre := PreProcess(inputRows, outputRows).value;
    var data := inputRows[1..];
    PreProcessKeepsTemplate(inputRows, outputRows);
    PreProcessRoutable(inputRows, outputRows);
    assert pre.rows[j] == outputRows[j] by {
      assert pre.rows[j] == pre.rows[..|outputRows|][j];
    }
    forall k | 0 <= k < |data| ensures Slot(pre.ids, data, k) != j {
      PreProcessResolves(inputRows, outputRows, k + 1);
      assert data[k] == inputRows[k + 1];
      if j != 0 {
        assert data[k][InId] in IdsOf(data);
      }
    }
    var records := Records(data, schedule);
    assert Process(inputRows, outputRows, schedule).value == DispatchAll(pre.rows, pre.ids, data, records, |data|);
    DispatchAllUntouched(pre.rows, pre.ids, data, records, |data|, j);
  }

  /** The returned table has one row per template row plus one per new distinct input id. */
  lemma ProcessLength(inputRows: seq<seq<string>>, outputRows: seq<seq<string>>, schedule: nat -> Workers)
    requires RowsAsWideAsHeader(inputRows) && RowsAsWideAsHeader(outputRows)
    requires PreProcess(inputRows, outputRows).Success?
    ensures NonEmptyRows(outputRows[1..]) && NonEmptyRows(inputRows[1..])
    ensures |Process(inputRows, outputRows, schedule).value| ==
              |outputRows| + |IdsOf(inputRows[1..]) - IdsOf(outputRows[1..])|
  {
    PreProcessAppends(inputRows, outputRows);
  }

  /** With distinct ids, none of them already known, every data row is first-new. */
  lemma {:induction false} FirstNewAllNew(known: set<string>, data: seq<seq<string>>)
    requires InputRowsWide(data) && NonEmptyRows(data) && DistinctIds(data)
    requires forall k :: 0 <= k < |data| ==> data[k][InId] !in known
    ensures FirstNew(known, data) == data
    decreases |data|
  {
    if data != [] {
      var rest := data[1..];
      assert forall k :: 0 <= k < |rest| ==> rest[k] == data[k + 1];
      FirstNewAllNew(known + {data[0][InId]}, rest);
    }
  }

  /**
   * ProcessFile without a template file: the job runs over the header-only
   * table. With a valid input header it succeeds and returns the header and
   * one row per distinct input id.
   */
  lemma ProcessWithoutTemplate(inputRows: seq<seq<string>>, schedule: nat -> Workers)
    requires RowsAsWideAsHeader(inputRows)
    requires |inputRows| > 0 && HeaderMatches(BeforeEodHeader, inputRows[0])
    ensures RowsAsWideAsHeader([AfterEodHeader]) && PreProcess(inputRows, [AfterEodHeader]).Success?
    ensures NonEmptyRows(inputRows[1..])
    ensures var out := Process(inputRows, [AfterEodHeader], schedule).value;
            |out| == 1 + |IdsOf(inputRows[1..])| && out[0] == AfterEodHeader
  {
    var template := [AfterEodHeader];
    assert HeaderMatches(AfterEodHeader, template[0]);
    assert IdsOf(template[1..]) == {};
    ProcessLength(inputRows, template, schedule);
    ProcessKeepsUnnamedRows(inputRows, template, schedule, 0);
  }

  /** Without a template file and with distinct input ids, preprocessing synthesizes every input row, in order. */
  lemma PreProcessWithoutTemplate(inputRows: seq<seq<string>>)
    requires RowsAsWideAsHeader(inputRows)
    requires |inputRows| > 0 && HeaderMatches(BeforeEodHeader, inputRows[0])
    requires NonEmptyRows(inputRows[1..]) && DistinctIds(inputRows[1..])
    ensures RowsAsWideAsHeader([AfterEodHeader]) && PreProcess(inputRows, [AfterEodHeader]).Success?
    ensures InputRowsWide(inputRows[1..])
    ensures PreProcess(inputRows, [AfterEodHeader]).value.rows == [AfterEodHeader] + Synthesized(inputRows[1..])
  {
    var template := [AfterEodHeader];
    assert HeaderMatches(AfterEodHeader, template[0]);
    PreProcessAppends(inputRows, template);
    assert IdsOf(template[1..]) == {};
    FirstNewAllNew({}, inputRows[1..]);
  }

  /**
   * Without a template file and with distinct input ids, output row k is
   * input row k synthesized and then written: the output follows the input's order.
   */
  lemma ProcessWithoutTemplateRow(inputRows: seq<seq<string>>, schedule: nat -> Workers, k: nat)
    requires RowsAsWideAsHeader(inputRows)
    requires |inputRows| > 0 && HeaderMatches(BeforeEodHeader, inputRows[0])
    requires NonEmptyRows(inputRows[1..]) && DistinctIds(inputRows[1..])
    requires 1 <= k < |inputRows|
    ensures RowsAsWideAsHeader([AfterEodHeader]) && PreProcess(inputRows, [AfterEodHeader]).Success?
    ensures var out := Process(inputRows, [AfterEodHeader], schedule).value;
            k < |out| && out[k] == WriteRow(SynthesizedRow(inputRows[k]), RunRecord(k - 1, inputRows[k], schedule(k - 1)))
  {
    var template := [AfterEodHeader];
    PreProcessWithoutTemplate(inputRows);
    var pre := PreProcess(inputRows, template).value;
    assert pre.rows[k] == SynthesizedRow(inputRows[k]) by {
      assert inputRows[1..][k - 1] == inputRows[k];
    }
    PreProcessRowPerId(inputRows, template, k);
    assert pre.ids[inputRows[k][InId]] == k;
    ProcessWritesEachRow(inputRows, template, schedule, k);
  }

  /** Writing the records never changes a column the writer does not write. */
  lemma {:induction false} DispatchAllKeepsColumns(rows: seq<seq<string>>, ids: map<string, int>, data: seq<seq<string>>,
                                                   records: seq<RowState>, n: nat, j: nat)
    requires Routable(rows, ids, data) && n <= |data| == |records| && j < |rows|
    ensures forall c :: 0 <= c < |rows[j]| && !IsWrittenColumn(c) ==>
              DispatchAll(rows, ids, data, records, n)[j][c] == rows[j][c]
    decreases n
  {
    if n > 0 {
      DispatchAllKeepsColumns(rows, ids, data, records, n - 1, j);
    }
  }

  /** Writing the records keeps every row's id. */
  lemma DispatchAllKeepsIds(rows: seq<seq<string>>, ids: map<string, int>, data: seq<seq<string>>,
                            records: seq<RowState>)
    requires Routable(rows, ids, data) && |data| == |records|
    ensures forall j :: 0 <= j < |rows| && |rows[j]| > OutId ==>
              DispatchAll(rows, ids, data, records, |data|)[j][OutId] == rows[j][OutId]
  {
    forall j | 0 <= j < |rows| && |rows[j]| > OutId
      ensures DispatchAll(rows, ids, data, records, |data|)[j][OutId] == rows[j][OutId]
    {
      DispatchAllKeepsColumns(rows, ids, data, records, |data|, j);
      assert !IsWrittenColumn(OutId);
    }
  }

  /**
   * With a template whose ids are unique, every input id is carried by
   * exactly one data row of the returned table: the row its index points at.
   */
  lemma ProcessRowPerId(inputRows: seq<seq<string>>, outputRows: seq<seq<string>>,
                        schedule: nat -> Workers, k: nat)
    requires RowsAsWideAsHeader(inputRows) && RowsAsWideAsHeader(outputRows)
    requires PreProcess(inputRows, outputRows).Success?
    requires UniqueDataIds(outputRows)
    requires 1 <= k < |inputRows|
    ensures var pre := PreProcess(inputRows, outputRows).value;
            var out := Process(inputRows, outputRows, schedule).value;
            && inputRows[k][InId] in pre.ids
            && 1 <= pre.ids[inputRows[k][InId]] < |out|
            && forall j :: 1 <= j < |out| ==>
                 |out[j]| > OutId && (out[j][OutId] == inputRows[k][InId] <==> j == pre.ids[inputRows[k][InId]])
  {
    var pre := PreProcess(inputRows, outputRows).value;
    var data := inputRows[1..];
    var records := Records(data, schedule);
    PreProcessRoutable(inputRows, outputRows);
    PreProcessRowPerId(inputRows, outputRows, k);
    PreProcessResolves(inputRows, outputRows, k);
    DispatchAllKeepsIds(pre.rows, pre.ids, data, records);
    assert Process(inputRows, outputRows, schedule).value == DispatchAll(pre.rows, pre.ids, data, records, |data|);
  }

  /**
   * With distinct slots, writing the same records a second time over the
   * finished table gives the finished table back.
   */
  lemma DispatchAllTwice(rows: seq<seq<string>>, ids: map<string, int>, data: seq<seq<string>>, records: seq<RowState>)
    requires Routable(rows, ids, data) && SlotsDistinct(rows, ids, data) && |data| == |records|
    ensures Routable(DispatchAll(rows, ids, data, records, |data|), ids, data)
    ensures var once := DispatchAll(rows, ids, data, records, |data|);
            DispatchAll(once, ids, data, records, |data|) == once
  {
    var once := DispatchAll(rows, ids, data, records, |data|);
    assert Routable(once, ids, data);
    var twice := DispatchAll(once, ids, data, records, |data|);
    forall j | 0 <= j < |rows| ensures twice[j] == once[j] {
      if k :| 0 <= k < |data| && Slot(ids, data, k) == j {
        DispatchAllWrites(rows, ids, data, records, |data|, k);
        DispatchAllWrites(once, ids, data, records, |data|, k);
        WriteRowIdempotent(rows[j], records[k]);
      } else {
        DispatchAllUntouched(rows, ids, data, records, |data|, j);
        DispatchAllUntouched(once, ids, data, records, |data|, j);
      }
    }
  }

  /**
   * A table Process returned is a valid template for the same input whose
   * preprocessing finds every input id and appends nothing.
   */
  lemma ProcessedIsTemplate(inputRows: seq<seq<string>>, outputRows: seq<seq<string>>,
                            schedule: nat -> Workers)
    requires RowsAsWideAsHeader(inputRows) && RowsAsWideAsHeader(outputRows)
    requires PreProcess(inputRows, outputRows).Success?
    requires |outputRows[0]| == OutputWidth
    ensures var pre := PreProcess(inputRows, outputRows).value;
            var once := Process(inputRows, outputRows, schedule).value;
            && RowsAsWideAsHeader(once)
            && PreProcess(inputRows, once) == Success(Reconciled(pre.ids, once))
  {
    var pre := PreProcess(inputRows, outputRows).value;
    var data := inputRows[1..];
    var records := Records(data, schedule);
    PreProcessRoutable(inputRows, outputRows);
    PreProcessKeepsTemplate(inputRows, outputRows);
    var once := Process(inputRows, outputRows, schedule).value;
    assert once == DispatchAll(pre.rows, pre.ids, data, records, |data|);
    DispatchAllUntouched(pre.rows, pre.ids, data, records, |data|, 0);
    assert once[0] == outputRows[0];
    forall k | 1 <= k < |once| ensures |once[k]| >= OutputWidth && once[k][OutId] == pre.rows[k][OutId] {
      DispatchAllKeepsColumns(pre.rows, pre.ids, data, records, |data|, k);
      assert !IsWrittenColumn(OutId);
    }
    var base := Reconciled(TemplateIndex(outputRows, |outputRows|), outputRows);
    AppendMissingIndexes(base, data);
    AppendMissingKeys(base, data);
    TemplateIndexSameIds(once, pre.rows, |once|);
    AppendMissingNothingNew(Reconciled(pre.ids, once), data);
  }

  /**
   * Running the job again over its own result, with the same input and the
   * same workers, returns that result unchanged.
   */
  lemma ProcessRerun(inputRows: seq<seq<string>>, outputRows: seq<seq<string>>, schedule: nat -> Workers)
    requires RowsAsWideAsHeader(inputRows) && RowsAsWideAsHeader(outputRows)
    requires PreProcess(inputRows, outputRows).Success?
    requires |outputRows[0]| == OutputWidth
    requires NonEmptyRows(inputRows[1..]) && DistinctIds(inputRows[1..])
    ensures var once := Process(inputRows, outputRows, schedule).value;
            RowsAsWideAsHeader(once) && Process(inputRows, once, schedule) == Success(once)
  {
    var pre := PreProcess(inputRows, outputRows).value;
    var data := inputRows[1..];
    var records := Records(data, schedule);
    PreProcessRoutable(inputRows, outputRows);
    PreProcessSlotsDistinct(inputRows, outputRows);
    var once := Process(inputRows, outputRows, schedule).value;
    assert once == DispatchAll(pre.rows, pre.ids, data, records, |data|);
    ProcessedIsTemplate(inputRows, outputRows, schedule);
    DispatchAllTwice(pre.rows, pre.ids, data, records);
    assert Process(inputRows, once, schedule) == Success(DispatchAll(once, pre.ids, data, records, |data|));
  }

  /** A record with its four worker markers cleared: what does not depend on which worker ran it. */
  function Unmarked(s: RowState): (u: RowState)
    ensures u.threadNo1 == 0 && u.threadNo2A == 0 && u.threadNo2B == 0 && u.threadNo3 == 0
  {
    s.(threadNo1 := 0, threadNo2A := 0, threadNo2B := 0, threadNo3 := 0)
  }

  /** Which workers handle a record changes only its markers. */
  lemma RunRecordUnmarked(index: int, row: seq<string>, w: Workers, w': Workers)
    requires |row| >= InputWidth
    ensures Unmarked(RunRecord(index, row, w)) == Unmarked(RunRecord(index, row, w'))
  {
    var parsed := Parser.ParseStep(Dispatched(index), row);
    if Parser.ParseFields(row).Success? {
      var a, a' := AverageStep(parsed, w.average), AverageStep(parsed, w'.average);
      assert Unmarked(a) == Unmarked(a');
      var b, b' := BenefitStep(a, w.benefit), BenefitStep(a', w'.benefit);
      assert Unmarked(b) == Unmarked(b');
    }
  }

  /**
   * Writing a second record that differs from the first only in its markers
   * leaves every non-audit column as the first record wrote it.
   */
  lemma WriteRowAgain(row: seq<string>, s: RowState, s': RowState)
    requires |row| >= OutputWidth && Unmarked(s) == Unmarked(s')
    ensures forall c :: 0 <= c < |row| && !IsAuditColumn(c) ==>
              WriteRow(WriteRow(row, s), s')[c] == WriteRow(row, s)[c]
  {
    assert s.error == s'.error && s.balanced == s'.balanced;
    assert s.averageBalanced == s'.averageBalanced && s.freeTransfer == s'.freeTransfer;
  }

  /**
   * Running the job again over its own result with other workers changes
   * at most the four audit columns.
   */
  lemma ProcessRerunOtherWorkers(inputRows: seq<seq<string>>, outputRows: seq<seq<string>>,
                                 schedule: nat -> Workers, schedule': nat -> Workers)
    requires RowsAsWideAsHeader(inputRows) && RowsAsWideAsHeader(outputRows)
    requires PreProcess(inputRows, outputRows).Success?
    requires |outputRows[0]| == OutputWidth
    requires NonEmptyRows(inputRows[1..]) && DistinctIds(inputRows[1..])
    ensures var once := Process(inputRows, outputRows, schedule).value;
            && RowsAsWideAsHeader(once)
            && Process(inputRows, once, schedule').Success?
            && var twice := Process(inputRows, once, schedule').value;
               && |twice| == |once|
               && forall j, c :: 0 <= j < |once| && 0 <= c < |once[j]| && !IsAuditColumn(c) ==>
                    |twice[j]| == |once[j]| && twice[j][c] == once[j][c]
  {
    var pre := PreProcess(inputRows, outputRows).value;
    var data := inputRows[1..];
    var records := Records(data, schedule);
    var records' := Records(data, schedule');
    PreProcessRoutable(inputRows, outputRows);
    PreProcessSlotsDistinct(inputRows, outputRows);
    var once := Process(inputRows, outputRows, schedule).value;
    assert once == DispatchAll(pre.rows, pre.ids, data, records, |data|);
    ProcessedIsTemplate(inputRows, outputRows, schedule);
    assert Routable(once, pre.ids, data);
    var twice := DispatchAll(once, pre.ids, data, records', |data|);
    assert Process(inputRows, once, schedule') == Success(twice);
    forall j, c | 0 <= j < |once| && 0 <= c < |once[j]| && !IsAuditColumn(c)
      ensures twice[j][c] == once[j][c]
    {
      if k :| 0 <= k < |data| && Slot(pre.ids, data, k) == j {
        DispatchAllWrites(pre.rows, pre.ids, data, records, |data|, k);
        DispatchAllWrites(once, pre.ids, data, records', |data|, k);
        assert records[k] == RunRecord(k, data[k], schedule(k));
        assert records'[k] == RunRecord(k, data[k], schedule'(k));
        RunRecordUnmarked(k, data[k], schedule(k), schedule'(k));
        WriteRowAgain(pre.rows[j], records[k], records'[k]);
      } else {
        DispatchAllUntouched(once, pre.ids, data, records', |data|, j);
      }
    }
  }

  /**
   * A record whose four columns parse, when no int64 overflow occurs: the
   * average of the parsed previous and current balance, the benefit rule on
   * the parsed balance, the bonus for the first hundred rows, and a worker id
   * in exactly the markers of the stages that changed the record.
   */
  lemma RecordOutcome(index: int, row: seq<string>, w: Workers, p: Parser.Parsed)
    requires |row| >= InputWidth && Parser.ParseFields(row) == Success(p)
    requires IsInt64(p.previousBalanced + p.balanced) && p.balanced <= MaxInt - 35
    ensures var s := RunRecord(index, row, w);
            && s.error.None?
            && s.previousBalanced == p.previousBalanced
            && s.averageBalanced == Quo(p.previousBalanced + p.balanced, 2)
            && s.balanced == p.balanced + (if p.balanced > 150 then 25 else 0) + (if index < 100 then 10 else 0)
            && s.freeTransfer == (if 100 <= p.balanced <= 150 then 5 else p.freeTransfer)
            && s.threadNo1 == w.average
            && s.threadNo2A == (if 100 <= p.balanced <= 150 then w.benefit else 0)
            && s.threadNo2B == (if p.balanced > 150 then w.benefit else 0)
            && s.threadNo3 == (if index < 100 then w.bonus else 0)
  {
    var parsed := Parser.ParseStep(Dispatched(index), row);
    var averaged := AverageStep(parsed, w.average);
    var benefited := BenefitStep(averaged, w.benefit);
    assert averaged.balanced == p.balanced;
    assert benefited.balanced == p.balanced + (if p.balanced > 150 then 25 else 0);
  }

  /** A record whose columns do not parse only puts the error text into the No 1 column. */
  lemma ParseErrorInNo1(index: int, row: seq<string>, w: Workers, outputRow: seq<string>)
    requires |row| >= InputWidth && |outputRow| >= OutputWidth
    requires Parser.ParseFields(row).Failure?
    ensures WriteRow(outputRow, RunRecord(index, row, w)) ==
              outputRow[OutNo1Thread := Parser.ParseFields(row).error]
  {
    assert ErrorColumn(RunRecord(index, row, w)) == OutNo1Thread;
  }

  /** The decimal texts the fifth test row reads and writes. */
  lemma TestRowTexts()
    ensures Itoa(99) == "99" && Itoa(200) == "200" && Itoa(2) == "2" && Itoa(120) == "120"
    ensures Itoa(109) == "109" && Itoa(149) == "149" && Itoa(1) == "1" && Itoa(0) == "0"
  {
  }

  /**
   * The fifth data row of the ProcessSlice test, dispatched with Index 4 and
   * worker 1 everywhere: the average comes from the parsed balance before the
   * benefit and bonus stages, so balance 99 and previous 200 give average 149
   * and final balance 109; no benefit applies and free transfer stays 2.
   */
  lemma FifthTestRecord()
    ensures RunRecord(4, ["5", "Test 5", "26", "99", "200", "120", "2"], Workers(1, 1, 1, 1, 1))
            == RowState(4, 149, 200, 109, 2, 1, 0, 0, 1, None)
  {
    var row := ["5", "Test 5", "26", "99", "200", "120", "2"];
    var p := Parser.Parsed(99, 200, 2, 120);
    TestRowTexts();
    Parser.ParseFormattedRow(row, p);
    RecordOutcome(4, row, Workers(1, 1, 1, 1, 1), p);
  }

  /**
   * The Writer turns that record (FifthTestRecord) into the expected output
   * row over its template row; the previous-balance column is not written
   * and keeps "100".
   */
  lemma FifthTestRow()
    ensures WriteRow(["5", "Test 5", "26", "176", "", "", "100", "125", "", "3", ""],
                     RowState(4, 149, 200, 109, 2, 1, 0, 0, 1, None))
            == ["5", "Test 5", "26", "109", "0", "1", "100", "149", "1", "2", "0"]
  {
    TestRowTexts();
    assert !IsWrittenColumn(0) && !IsWrittenColumn(1) && !IsWrittenColumn(2) && !IsWrittenColumn(6);
  }
}
