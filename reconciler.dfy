/**
 * The single-threaded preprocessing of processor.go: header validation
 * (validateHeaders) and reconciliation (preProcessRows), which builds the
 * id index from the template and appends one synthesized row for every input
 * id the template lacks.
 *
 * Tables are sequences of rows, each row a sequence of column texts; the
 * first row of a table is its header.
 */
module Reconciler {
  import opened Wrappers
  import opened Strconv
  import opened Columns

  /** The errors preProcessRows returns; the last two wrap a header error with fmt.Errorf's %w. */
  datatype ProcessError =
    | InvalidInputRows
    | InvalidOutputRows
    | InvalidHeader
    | HeaderMismatch(header: string, index: nat)
    | InputHeaderInvalid(cause: ProcessError)
    | OutputHeaderInvalid(cause: ProcessError)
  {
    function Message(): (m: string)
      ensures |m| > 0
      ensures (InputHeaderInvalid? || OutputHeaderInvalid?) ==>
                |m| > |cause.Message()| && m[|m| - |cause.Message()|..] == cause.Message()
    {
      match this
      case InvalidInputRows => "invalid input rows provided"
      case InvalidOutputRows => "invalid output rows provided"
      case InvalidHeader => "invalid header provided"
      case HeaderMismatch(header, index) =>
        "invalid row provided for header " + Quote(header) + " at index " + Quote(Itoa(index))
      case InputHeaderInvalid(cause) => "failed to validate input header, " + cause.Message()
      case OutputHeaderInvalid(cause) => "failed to validate output header, " + cause.Message()
    }
  }

  /** What validateHeaders accepts: the expected header as a prefix; extra trailing columns are fine. */
  predicate HeaderMatches(headers: seq<string>, columns: seq<string>) {
    |columns| >= |headers| && columns[..|headers|] == headers
  }

  /** Every data row is at least as wide as the header row, as encoding/csv delivers a table. */
  predicate RowsAsWideAsHeader(table: seq<seq<string>>) {
    forall k :: 0 < k < |table| ==> |table[k]| >= |table[0]|
  }

  /** The first position at or after `from` where the columns differ from the headers, or |headers|. */
  function FirstMismatch(headers: seq<string>, columns: seq<string>, from: nat): (i: nat)
    requires |columns| >= |headers| && from <= |headers|
    ensures from <= i <= |headers|
    ensures forall j :: from <= j < i ==> columns[j] == headers[j]
    ensures i < |headers| ==> columns[i] != headers[i]
    decreases |headers| - from
  {
    if from == |headers| || columns[from] != headers[from] then from
    else FirstMismatch(headers, columns, from + 1)
  }

  /** The result of validateHeaders. */
  function HeaderCheck(headers: seq<string>, columns: seq<string>): (r: Outcome<ProcessError>)
    ensures r.Pass? <==> HeaderMatches(headers, columns)
    ensures |columns| < |headers| ==> r == Fail(InvalidHeader)
    ensures |columns| >= |headers| && r.Fail? ==>
              && r.error.HeaderMismatch?
              && r.error.index < |headers|
              && r.error.header == headers[r.error.index]
              && columns[r.error.index] != headers[r.error.index]
              && columns[..r.error.index] == headers[..r.error.index]
  {
    if |columns| < |headers| then Fail(InvalidHeader)
    else
      var i := FirstMismatch(headers, columns, 0);
      if i == |headers| then
        assert columns[..|headers|] == headers;
        Pass
      else
        assert columns[..i] == headers[..i];
        Fail(HeaderMismatch(headers[i], i))
  }

  /** validateHeaders: an early-return scan over the expected positions. */
  method ValidateHeaders(headers: seq<string>, columns: seq<string>) returns (r: Outcome<ProcessError>)
    ensures r == HeaderCheck(headers, columns)
  {
    if |columns| < |headers| {
      return Fail(InvalidHeader);
    }
    for i := 0 to |headers|
      invariant forall j :: 0 <= j < i ==> columns[j] == headers[j]
    {
      if columns[i] != headers[i] {
        return Fail(HeaderMismatch(headers[i], i));
      }
    }
    assert columns[..|headers|] == headers;
    return Pass;
  }

  /**
   * The id index built from the template rows 1..n-1: every id maps to a row
   * that carries it, and when the template repeats an id the last row wins.
   */
  function TemplateIndex(rows: seq<seq<string>>, n: nat): (ids: map<string, int>)
    requires n <= |rows|
    requires forall k :: 1 <= k < n ==> |rows[k]| >= 1
    ensures n >= 2 ==> rows[n - 1][OutId] in ids && ids[rows[n - 1][OutId]] == n - 1
  {
    if n <= 1 then map[]
    else TemplateIndex(rows, n - 1)[rows[n - 1][OutId] := n - 1]
  }

  /** Every indexed id resolves to a data row that carries it. */
  lemma {:induction false} TemplateIndexResolves(rows: seq<seq<string>>, n: nat, id: string)
    requires n <= |rows|
    requires forall j :: 1 <= j < n ==> |rows[j]| >= 1
    requires id in TemplateIndex(rows, n)
    ensures 1 <= TemplateIndex(rows, n)[id] < n
    ensures rows[TemplateIndex(rows, n)[id]][OutId] == id
  {
    if id != rows[n - 1][OutId] {
      TemplateIndexResolves(rows, n - 1, id);
    }
  }

  /** Every template row's id is indexed, at that row or at a later row carrying the same id. */
  lemma {:induction false} TemplateIndexCovers(rows: seq<seq<string>>, n: nat, k: nat)
    requires n <= |rows|
    requires forall j :: 1 <= j < n ==> |rows[j]| >= 1
    requires 1 <= k < n
    ensures rows[k][OutId] in TemplateIndex(rows, n)
    ensures k <= TemplateIndex(rows, n)[rows[k][OutId]]
  {
    if k < n - 1 {
      TemplateIndexCovers(rows, n - 1, k);
    }
  }

  /** The output row preProcessRows appends for an input row whose id the template lacks. */
  function SynthesizedRow(row: seq<string>): (r: seq<string>)
    requires |row| >= InputWidth
    ensures |r| == OutputWidth
    ensures r[OutId] == row[InId]
  {
    [row[InId], row[InName], row[InAge], row[InBalanced], "", "",
     row[InPreviousBalanced], "", "", row[InFreeTransfer], ""]
  }

  /** The id index together with the (possibly extended) output table. */
  datatype Reconciled = Reconciled(ids: map<string, int>, rows: seq<seq<string>>)

  /** The index is exactly the last-occurrence index of the table's data rows. */
  predicate IndexesRows(r: Reconciled) {
    && |r.rows| >= 1
    && (forall k :: 1 <= k < |r.rows| ==> |r.rows[k]| >= 1)
    && r.ids == TemplateIndex(r.rows, |r.rows|)
  }

  predicate NonEmptyRows(data: seq<seq<string>>) {
    forall k :: 0 <= k < |data| ==> |data[k]| >= 1
  }

  predicate InputRowsWide(data: seq<seq<string>>) {
    forall k :: 0 <= k < |data| ==> |data[k]| >= InputWidth
  }

  /** The ids the rows carry. */
  function IdsOf(data: seq<seq<string>>): set<string>
    requires NonEmptyRows(data)
  {
    set k | 0 <= k < |data| :: data[k][InId]
  }

  /** The index depends only on the rows it covers. */
  lemma {:induction false} TemplateIndexPrefix(rows: seq<seq<string>>, rows': seq<seq<string>>, n: nat)
    requires n <= |rows| && n <= |rows'| && rows[..n] == rows'[..n]
    requires forall k :: 1 <= k < n ==> |rows[k]| >= 1
    ensures TemplateIndex(rows, n) == TemplateIndex(rows', n)
  {
    if n > 1 {
      assert rows[..n - 1] == rows'[..n - 1] by {
        assert rows[..n - 1] == rows[..n][..n - 1];
        assert rows'[..n - 1] == rows'[..n][..n - 1];
      }
      assert rows[n - 1] == rows[..n][n - 1] == rows'[..n][n - 1] == rows'[n - 1];
      TemplateIndexPrefix(rows, rows', n - 1);
    }
  }

  /**
   * The append loop of preProcessRows over the input data rows, in order: a row
   * whose id is not yet indexed gets a synthesized row at the end of the table
   * and is indexed at that position.
   */
  function AppendMissing(base: Reconciled, data: seq<seq<string>>): (r: Reconciled)
    requires InputRowsWide(data)
    ensures |r.rows| >= |base.rows| && r.rows[..|base.rows|] == base.rows
    ensures forall k :: |base.rows| <= k < |r.rows| ==> |r.rows[k]| == OutputWidth
    ensures forall id :: id in base.ids ==> id in r.ids && r.ids[id] == base.ids[id]
    decreases |data|
  {
    if data == [] then
      assert base.rows[..|base.rows|] == base.rows;
      base
    else
      var prev := AppendMissing(base, data[..|data| - 1]);
      var row := data[|data| - 1];
      if row[InId] in prev.ids then prev
      else
        var r := Reconciled(prev.ids[row[InId] := |prev.rows|], prev.rows + [SynthesizedRow(row)]);
        assert r.rows[..|base.rows|] == prev.rows[..|base.rows|];
        r
  }

  /** After the append loop every id of the data is indexed, and nothing else was added. */
  lemma {:induction false} AppendMissingKeys(base: Reconciled, data: seq<seq<string>>)
    requires InputRowsWide(data)
    ensures AppendMissing(base, data).ids.Keys == base.ids.Keys + IdsOf(data)
    decreases |data|
  {
    if data != [] {
      var prefix := data[..|data| - 1];
      var x := data[|data| - 1];
      AppendMissingKeys(base, prefix);
      assert data == prefix + [x];
      IdsOfSnoc(prefix, x);
    }
  }

  /** The append loop keeps the index equal to the last-occurrence index of the grown table. */
  lemma {:induction false} AppendMissingIndexes(base: Reconciled, data: seq<seq<string>>)
    requires InputRowsWide(data) && IndexesRows(base)
    ensures IndexesRows(AppendMissing(base, data))
    decreases |data|
  {
    if data != [] {
      var prefix := data[..|data| - 1];
      AppendMissingIndexes(base, prefix);
      var prev := AppendMissing(base, prefix);
      var row := data[|data| - 1];
      if row[InId] !in prev.ids {
        var synthesized := SynthesizedRow(row);
        var rows := prev.rows + [synthesized];
        assert rows[|prev.rows|] == synthesized;
        assert forall k :: 1 <= k < |rows| ==> |rows[k]| >= 1 by {
          forall k | 1 <= k < |rows| ensures |rows[k]| >= 1 {
            if k < |prev.rows| {
              assert rows[k] == prev.rows[k];
            }
          }
        }
        assert rows[..|prev.rows|] == prev.rows[..|prev.rows|];
        TemplateIndexPrefix(prev.rows, rows, |prev.rows|);
        assert TemplateIndex(rows, |rows|) == TemplateIndex(rows, |prev.rows|)[synthesized[OutId] := |prev.rows|];
      }
    }
  }

  lemma IdsOfCons(data: seq<seq<string>>)
    requires NonEmptyRows(data) && |data| >= 1
    ensures IdsOf(data) == {data[0][InId]} + IdsOf(data[1..])
  {
    assert forall k :: 1 <= k < |data| ==> data[1..][k - 1] == data[k];
  }

  lemma IdsOfSnoc(data: seq<seq<string>>, x: seq<string>)
    requires NonEmptyRows(data) && |x| >= 1
    ensures NonEmptyRows(data + [x])
    ensures IdsOf(data + [x]) == IdsOf(data) + {x[InId]}
  {
    var d := data + [x];
    forall id | id in IdsOf(d) ensures id in IdsOf(data) + {x[InId]} {
      var k :| 0 <= k < |d| && d[k][InId] == id;
      if k < |data| {
        assert d[k] == data[k];
      }
    }
    forall id | id in IdsOf(data) ensures id in IdsOf(d) {
      var k :| 0 <= k < |data| && data[k][InId] == id;
      assert d[k] == data[k];
    }
    assert d[|data|] == x;
  }

  /**
   * Reference definition of the appended rows: the data rows, in input order,
   * whose id is neither known nor carried by an earlier data row.
   */
  function FirstNew(known: set<string>, data: seq<seq<string>>): (r: seq<seq<string>>)
    requires InputRowsWide(data)
    ensures InputRowsWide(r)
    decreases |data|
  {
    if data == [] then []
    else if data[0][InId] in known then FirstNew(known, data[1..])
    else [data[0]] + FirstNew(known + {data[0][InId]}, data[1..])
  }

  /** The synthesized row of every given data row, in order. */
  function Synthesized(data: seq<seq<string>>): (rows: seq<seq<string>>)
    requires InputRowsWide(data)
    ensures |rows| == |data|
    ensures forall k :: 0 <= k < |data| ==> rows[k] == SynthesizedRow(data[k])
  {
    seq(|data|, k requires 0 <= k < |data| => SynthesizedRow(data[k]))
  }

  lemma SynthesizedSnoc(a: seq<seq<string>>, x: seq<string>)
    requires InputRowsWide(a) && |x| >= InputWidth
    ensures InputRowsWide(a + [x])
    ensures Synthesized(a + [x]) == Synthesized(a) + [SynthesizedRow(x)]
  {
    assert (a + [x])[|a|] == x;
  }

  /** FirstNew grows at the back by the new row exactly when its id is not yet known. */
  lemma {:induction false} FirstNewSnoc(known: set<string>, a: seq<seq<string>>, x: seq<string>)
    requires InputRowsWide(a) && |x| >= InputWidth
    ensures InputRowsWide(a + [x])
    ensures FirstNew(known, a + [x]) ==
              FirstNew(known, a) + (if x[InId] in known + IdsOf(a) then [] else [x])
    decreases |a|
  {
    var ax := a + [x];
    if a == [] {
      assert ax == [x];
      assert ax[1..] == [];
    } else {
      assert ax[0] == a[0] && ax[1..] == a[1..] + [x];
      IdsOfCons(a);
      if a[0][InId] in known {
        FirstNewSnoc(known, a[1..], x);
        assert known + IdsOf(a) == known + IdsOf(a[1..]);
      } else {
        FirstNewSnoc(known + {a[0][InId]}, a[1..], x);
        assert known + {a[0][InId]} + IdsOf(a[1..]) == known + IdsOf(a);
      }
    }
  }

  /**
   * The append loop adds exactly the synthesized rows of FirstNew: one per
   * input id the index lacks, in the order of the id's first appearance.
   */
  lemma {:induction false} AppendMissingIsFirstNew(base: Reconciled, data: seq<seq<string>>)
    requires InputRowsWide(data)
    ensures AppendMissing(base, data).rows == base.rows + Synthesized(FirstNew(base.ids.Keys, data))
    decreases |data|
  {
    if data == [] {
      assert Synthesized(FirstNew(base.ids.Keys, data)) == [];
    } else {
      var prefix := data[..|data| - 1];
      var x := data[|data| - 1];
      assert data == prefix + [x];
      var prev := AppendMissing(base, prefix);
      var before := FirstNew(base.ids.Keys, prefix);
      AppendMissingIsFirstNew(base, prefix);
      assert prev.rows == base.rows + Synthesized(before);
      AppendMissingKeys(base, prefix);
      FirstNewSnoc(base.ids.Keys, prefix, x);
      if x[InId] in prev.ids {
        assert FirstNew(base.ids.Keys, data) == before;
        assert AppendMissing(base, data) == prev;
      } else {
        assert FirstNew(base.ids.Keys, data) == before + [x];
        assert AppendMissing(base, data).rows == prev.rows + [SynthesizedRow(x)];
        SynthesizedSnoc(before, x);
        assert base.rows + Synthesized(before) + [SynthesizedRow(x)] ==
               base.rows + (Synthesized(before) + [SynthesizedRow(x)]);
      }
    }
  }

  /** FirstNew's rows carry unknown ids of the data, each at most once. */
  lemma {:induction false} FirstNewIds(known: set<string>, data: seq<seq<string>>)
    requires InputRowsWide(data)
    ensures forall a :: 0 <= a < |FirstNew(known, data)| ==>
              FirstNew(known, data)[a][InId] !in known && FirstNew(known, data)[a][InId] in IdsOf(data)
    ensures forall a, b :: 0 <= a < b < |FirstNew(known, data)| ==>
              FirstNew(known, data)[a][InId] != FirstNew(known, data)[b][InId]
    decreases |data|
  {
    if data != [] {
      IdsOfCons(data);
      var d := data[0][InId];
      var f := FirstNew(known, data);
      if d in known {
        FirstNewIds(known, data[1..]);
        assert f == FirstNew(known, data[1..]);
      } else {
        var g := FirstNew(known + {d}, data[1..]);
        FirstNewIds(known + {d}, data[1..]);
        assert f == [data[0]] + g;
        forall a | 0 <= a < |f| ensures f[a][InId] !in known && f[a][InId] in IdsOf(data) {
          if a > 0 {
            assert f[a] == g[a - 1];
          }
        }
        forall a, b | 0 <= a < b < |f| ensures f[a][InId] != f[b][InId] {
          assert f[b] == g[b - 1];
          if a > 0 {
            assert f[a] == g[a - 1];
          }
        }
      }
    }
  }

  /** Removing the known ids from {d} + rest, with d counted apart when it is new. */
  lemma SplitOff(d: string, rest: set<string>, known: set<string>)
    ensures d in known ==> ({d} + rest) - known == rest - known
    ensures d !in known ==> |({d} + rest) - known| == 1 + |rest - (known + {d})|
  {
    if d !in known {
      assert ({d} + rest) - known == {d} + (rest - (known + {d}));
    }
  }

  /** FirstNew has one row per id of the data that is not known. */
  lemma {:induction false} FirstNewCount(known: set<string>, data: seq<seq<string>>)
    requires InputRowsWide(data)
    ensures |FirstNew(known, data)| == |IdsOf(data) - known|
    decreases |data|
  {
    if data != [] {
      IdsOfCons(data);
      var d := data[0][InId];
      SplitOff(d, IdsOf(data[1..]), known);
      if d in known {
        FirstNewCount(known, data[1..]);
      } else {
        FirstNewCount(known + {d}, data[1..]);
      }
    }
  }

  /** The index of rows 1..n-1 has exactly the ids those rows carry. */
  lemma {:induction false} TemplateIndexKeys(rows: seq<seq<string>>, n: nat)
    requires 1 <= n <= |rows|
    requires forall k :: 1 <= k < n ==> |rows[k]| >= 1
    ensures NonEmptyRows(rows[1..n])
    ensures TemplateIndex(rows, n).Keys == IdsOf(rows[1..n])
  {
    if n > 1 {
      TemplateIndexKeys(rows, n - 1);
      assert rows[1..n] == rows[1..n - 1] + [rows[n - 1]];
      IdsOfSnoc(rows[1..n - 1], rows[n - 1]);
    }
  }

  /** preProcessRows on values: the validations in order, then the index and the appended rows. */
  function PreProcess(inputRows: seq<seq<string>>, outputRows: seq<seq<string>>): (r: Result<Reconciled, ProcessError>)
    requires RowsAsWideAsHeader(inputRows) && RowsAsWideAsHeader(outputRows)
    ensures |inputRows| == 0 ==> r == Failure(InvalidInputRows)
    ensures |inputRows| > 0 && |outputRows| == 0 ==> r == Failure(InvalidOutputRows)
    ensures |inputRows| > 0 && |outputRows| > 0 && HeaderCheck(BeforeEodHeader, inputRows[0]).Fail? ==>
              r == Failure(InputHeaderInvalid(HeaderCheck(BeforeEodHeader, inputRows[0]).error))
    ensures |inputRows| > 0 && |outputRows| > 0 && HeaderCheck(BeforeEodHeader, inputRows[0]).Pass? &&
            HeaderCheck(AfterEodHeader, outputRows[0]).Fail? ==>
              r == Failure(OutputHeaderInvalid(HeaderCheck(AfterEodHeader, outputRows[0]).error))
    ensures r.Success? <==>
              && |inputRows| > 0 && |outputRows| > 0
              && HeaderMatches(BeforeEodHeader, inputRows[0])
              && HeaderMatches(AfterEodHeader, outputRows[0])
    ensures r.Success? ==>
              r.value == AppendMissing(Reconciled(TemplateIndex(outputRows, |outputRows|), outputRows), inputRows[1..])
  {
    if |inputRows| == 0 then Failure(InvalidInputRows)
    else if |outputRows| == 0 then Failure(InvalidOutputRows)
    else match HeaderCheck(BeforeEodHeader, inputRows[0])
      case Fail(e) => Failure(InputHeaderInvalid(e))
      case Pass =>
        match HeaderCheck(AfterEodHeader, outputRows[0])
        case Fail(e) => Failure(OutputHeaderInvalid(e))
        case Pass =>
          var base := Reconciled(TemplateIndex(outputRows, |outputRows|), outputRows);
          Success(AppendMissing(base, inputRows[1..]))
  }

  /** When the template repeats an id, the index points at the last row carrying it. */
  lemma TemplateIndexIsLast(rows: seq<seq<string>>, n: nat, id: string)
    requires n <= |rows|
    requires forall k :: 1 <= k < n ==> |rows[k]| >= 1
    requires id in TemplateIndex(rows, n)
    ensures 1 <= TemplateIndex(rows, n)[id] < n
    ensures forall j :: TemplateIndex(rows, n)[id] < j < n ==> rows[j][OutId] != id
  {
    TemplateIndexResolves(rows, n, id);
    forall j | TemplateIndex(rows, n)[id] < j < n ensures rows[j][OutId] != id {
      TemplateIndexCovers(rows, n, j);
    }
  }

  /**
   * A successful preprocessing returns the template, header included, as an
   * unchanged prefix, and every row after the header is at least 11 columns wide.
   */
  lemma PreProcessKeepsTemplate(inputRows: seq<seq<string>>, outputRows: seq<seq<string>>)
    requires RowsAsWideAsHeader(inputRows) && RowsAsWideAsHeader(outputRows)
    requires PreProcess(inputRows, outputRows).Success?
    ensures var rows := PreProcess(inputRows, outputRows).value.rows;
            && |rows| >= |outputRows| >= 1
            && rows[..|outputRows|] == outputRows
            && rows[0] == outputRows[0]
            && forall k :: 1 <= k < |rows| ==> |rows[k]| >= OutputWidth
  {
    var rows := PreProcess(inputRows, outputRows).value.rows;
    forall k | 1 <= k < |rows| ensures |rows[k]| >= OutputWidth {
      if k < |outputRows| {
        assert rows[k] == rows[..|outputRows|][k];
      }
    }
    assert rows[0] == rows[..|outputRows|][0];
  }

  /** After a successful preprocessing every input id resolves to a data row that carries it. */
  lemma PreProcessResolves(inputRows: seq<seq<string>>, outputRows: seq<seq<string>>, k: nat)
    requires RowsAsWideAsHeader(inputRows) && RowsAsWideAsHeader(outputRows)
    requires PreProcess(inputRows, outputRows).Success?
    requires 1 <= k < |inputRows|
    ensures var r := PreProcess(inputRows, outputRows).value;
            && inputRows[k][InId] in r.ids
            && 1 <= r.ids[inputRows[k][InId]] < |r.rows|
            && r.rows[r.ids[inputRows[k][InId]]][OutId] == inputRows[k][InId]
  {
    var r := PreProcess(inputRows, outputRows).value;
    var data := inputRows[1..];
    var base := Reconciled(TemplateIndex(outputRows, |outputRows|), outputRows);
    assert IndexesRows(base) by {
      assert |outputRows[0]| >= OutputWidth;
    }
    AppendMissingIndexes(base, data);
    AppendMissingKeys(base, data);
    assert data[k - 1] == inputRows[k];
    assert inputRows[k][InId] in IdsOf(data);
    TemplateIndexResolves(r.rows, |r.rows|, inputRows[k][InId]);
  }

  /**
   * A successful preprocessing appends exactly the synthesized rows of the input
   * ids the template lacks, in order of first appearance, and so as many rows as
   * there are distinct input ids not present in the template.
   */
  lemma PreProcessAppends(inputRows: seq<seq<string>>, outputRows: seq<seq<string>>)
    requires RowsAsWideAsHeader(inputRows) && RowsAsWideAsHeader(outputRows)
    requires PreProcess(inputRows, outputRows).Success?
    ensures NonEmptyRows(outputRows[1..]) && InputRowsWide(inputRows[1..])
    ensures var known := IdsOf(outputRows[1..]);
            var rows := PreProcess(inputRows, outputRows).value.rows;
            && rows == outputRows + Synthesized(FirstNew(known, inputRows[1..]))
            && |rows| - |outputRows| == |IdsOf(inputRows[1..]) - known|
  {
    assert |outputRows[0]| >= OutputWidth;
    var data := inputRows[1..];
    var base := Reconciled(TemplateIndex(outputRows, |outputRows|), outputRows);
    assert PreProcess(inputRows, outputRows).value == AppendMissing(base, data);
    TemplateIndexKeys(outputRows, |outputRows|);
    assert outputRows[1..|outputRows|] == outputRows[1..];
    var known := IdsOf(outputRows[1..]);
    assert base.ids.Keys == known;
    AppendMissingIsFirstNew(base, data);
    FirstNewCount(known, data);
  }

  /** No two data rows of the table carry the same id. */
  predicate UniqueDataIds(rows: seq<seq<string>>) {
    forall a, b :: 1 <= a < b < |rows| && |rows[a]| > OutId && |rows[b]| > OutId ==>
      rows[a][OutId] != rows[b][OutId]
  }

  /** When the template's ids are unique, so are the ids of the preprocessed table. */
  lemma PreProcessUniqueIds(inputRows: seq<seq<string>>, outputRows: seq<seq<string>>)
    requires RowsAsWideAsHeader(inputRows) && RowsAsWideAsHeader(outputRows)
    requires PreProcess(inputRows, outputRows).Success?
    requires UniqueDataIds(outputRows)
    ensures UniqueDataIds(PreProcess(inputRows, outputRows).value.rows)
  {
    var rows := PreProcess(inputRows, outputRows).value.rows;
    PreProcessAppends(inputRows, outputRows);
    PreProcessKeepsTemplate(inputRows, outputRows);
    var known := IdsOf(outputRows[1..]);
    var appended := FirstNew(known, inputRows[1..]);
    FirstNewIds(known, inputRows[1..]);
    var t := |outputRows|;
    forall a, b | 1 <= a < b < |rows| ensures rows[a][OutId] != rows[b][OutId] {
      if b < t {
        assert rows[a] == outputRows[a] && rows[b] == outputRows[b];
      } else if a < t {
        assert rows[a] == outputRows[a] == outputRows[1..][a - 1];
        assert rows[b] == SynthesizedRow(appended[b - t]);
      } else {
        assert rows[a] == SynthesizedRow(appended[a - t]);
        assert rows[b] == SynthesizedRow(appended[b - t]);
      }
    }
  }

  /**
   * When the template's ids are unique, every input id is carried by exactly
   * one data row of the preprocessed table: the row its index points at.
   */
  lemma PreProcessRowPerId(inputRows: seq<seq<string>>, outputRows: seq<seq<string>>, k: nat)
    requires RowsAsWideAsHeader(inputRows) && RowsAsWideAsHeader(outputRows)
    requires PreProcess(inputRows, outputRows).Success?
    requires UniqueDataIds(outputRows)
    requires 1 <= k < |inputRows|
    ensures var r := PreProcess(inputRows, outputRows).value;
            && inputRows[k][InId] in r.ids
            && forall j :: 1 <= j < |r.rows| ==>
                 |r.rows[j]| > OutId && (r.rows[j][OutId] == inputRows[k][InId] <==> j == r.ids[inputRows[k][InId]])
  {
    PreProcessKeepsTemplate(inputRows, outputRows);
    PreProcessUniqueIds(inputRows, outputRows);
    PreProcessResolves(inputRows, outputRows, k);
  }

  /** The index depends only on the id column of the rows it covers. */
  lemma {:induction false} TemplateIndexSameIds(rows: seq<seq<string>>, rows': seq<seq<string>>, n: nat)
    requires n <= |rows| && n <= |rows'|
    requires forall k :: 1 <= k < n ==> |rows[k]| >= 1 && |rows'[k]| >= 1 && rows[k][OutId] == rows'[k][OutId]
    ensures TemplateIndex(rows, n) == TemplateIndex(rows', n)
  {
    if n > 1 {
      TemplateIndexSameIds(rows, rows', n - 1);
    }
  }

  /** When every id of the data is already indexed, the append loop changes nothing. */
  lemma {:induction false} AppendMissingNothingNew(base: Reconciled, data: seq<seq<string>>)
    requires InputRowsWide(data) && IdsOf(data) <= base.ids.Keys
    ensures AppendMissing(base, data) == base
    decreases |data|
  {
    if data != [] {
      var prefix := data[..|data| - 1];
      var x := data[|data| - 1];
      assert data == prefix + [x];
      IdsOfSnoc(prefix, x);
      AppendMissingNothingNew(base, prefix);
    }
  }

  /** The values of a table whose rows are arrays. */
  function Contents(rows: seq<array<string>>): (t: seq<seq<string>>)
    reads rows
    ensures |t| == |rows| && forall k :: 0 <= k < |rows| ==> t[k] == rows[k][..]
  {
    seq(|rows|, k requires 0 <= k < |rows| reads rows => rows[k][..])
  }

  /** No two rows of the table are the same array. */
  predicate Distinct(rows: seq<array<string>>) {
    forall a, b :: 0 <= a < b < |rows| ==> rows[a] != rows[b]
  }

  lemma ContentsAppend(rows: seq<array<string>>, a: array<string>)
    ensures Contents(rows + [a]) == Contents(rows) + [a[..]]
  {
  }

  /** The row literal preProcessRows appends, as a fresh array. */
  method NewSynthesizedRow(row: seq<string>) returns (a: array<string>)
    requires |row| >= InputWidth
    ensures fresh(a) && a[..] == SynthesizedRow(row)
  {
    a := new string[] [
      row[InId], row[InName], row[InAge], row[InBalanced], "", "",
      row[InPreviousBalanced], "", "", row[InFreeTransfer], ""];
  }

  /** The first loop of preProcessRows: indexes the template's data rows by id. */
  method IndexTemplate(outputRows: seq<array<string>>) returns (ids: map<string, int>)
    requires |outputRows| >= 1
    requires forall k :: 1 <= k < |outputRows| ==> outputRows[k].Length >= 1
    ensures ids == TemplateIndex(Contents(outputRows), |outputRows|)
  {
    ghost var template := Contents(outputRows);
    ids := map[];
    var idx := 1;
    while idx < |outputRows|
      invariant 1 <= idx <= |outputRows|
      invariant ids == TemplateIndex(template, idx)
    {
      ids := ids[outputRows[idx][OutId] := idx];
      idx := idx + 1;
    }
  }

  /**
   * The second loop of preProcessRows: a new row array for every data row whose
   * id is not yet indexed, appended at the end and indexed there.
   */
  method AppendMissingRows(ids0: map<string, int>, outputRows: seq<array<string>>, data: seq<seq<string>>)
    returns (ids: map<string, int>, rows: seq<array<string>>)
    requires InputRowsWide(data)
    ensures Reconciled(ids, Contents(rows)) == AppendMissing(Reconciled(ids0, Contents(outputRows)), data)
    ensures |rows| >= |outputRows| && rows[..|outputRows|] == outputRows
    ensures forall k :: |outputRows| <= k < |rows| ==> fresh(rows[k])
    ensures Distinct(outputRows) ==> Distinct(rows)
  {
    ghost var base := Reconciled(ids0, Contents(outputRows));
    ids, rows := ids0, outputRows;
    var lastIndex := |outputRows|;
    for i := 0 to |data|
      invariant lastIndex == |rows|
      invariant Reconciled(ids, Contents(rows)) == AppendMissing(base, data[..i])
      invariant |rows| >= |outputRows| && rows[..|outputRows|] == outputRows
      invariant forall k :: |outputRows| <= k < |rows| ==> fresh(rows[k])
      invariant Distinct(outputRows) ==> Distinct(rows)
    {
      assert data[..i + 1][..i] == data[..i];
      var row := data[i];
      var rowId := row[InId];
      if rowId !in ids {
        var synthesized := NewSynthesizedRow(row);
        ContentsAppend(rows, synthesized);
        rows := rows + [synthesized];
        ids := ids[rowId := lastIndex];
        lastIndex := lastIndex + 1;
      }
    }
    assert data[..|data|] == data;
  }

  /**
   * preProcessRows: validates, indexes the template rows, then appends the
   * missing ones. The template's rows are returned as the very same arrays,
   * in order.
   */
  method PreProcessRows(inputRows: seq<seq<string>>, outputRows: seq<array<string>>)
    returns (r: Result<(map<string, int>, seq<array<string>>), ProcessError>)
    requires RowsAsWideAsHeader(inputRows) && RowsAsWideAsHeader(Contents(outputRows))
    ensures var spec := PreProcess(inputRows, Contents(outputRows));
            && r.Failure? == spec.Failure?
            && (r.Failure? ==> r.error == spec.error)
            && (r.Success? ==> r.value.0 == spec.value.ids && Contents(r.value.1) == spec.value.rows)
    ensures r.Success? ==> |r.value.1| >= |outputRows| && r.value.1[..|outputRows|] == outputRows
    ensures r.Success? ==> forall k :: |outputRows| <= k < |r.value.1| ==> fresh(r.value.1[k])
    ensures r.Success? && Distinct(outputRows) ==> Distinct(r.value.1)
  {
    if |inputRows| == 0 {
      return Failure(InvalidInputRows);
    }
    if |outputRows| == 0 {
      return Failure(InvalidOutputRows);
    }
    var check := ValidateHeaders(BeforeEodHeader, inputRows[0]);
    if check.Fail? {
      return Failure(InputHeaderInvalid(check.error));
    }
    check := ValidateHeaders(AfterEodHeader, outputRows[0][..]);
    if check.Fail? {
      return Failure(OutputHeaderInvalid(check.error));
    }
    assert forall k :: 1 <= k < |outputRows| ==> outputRows[k].Length >= 1 by {
      assert Contents(outputRows)[0] == outputRows[0][..];
      forall k | 1 <= k < |outputRows| ensures outputRows[k].Length >= 1 {
        assert Contents(outputRows)[k] == outputRows[k][..];
      }
    }
    var ids := IndexTemplate(outputRows);
    var rows;
    ids, rows := AppendMissingRows(ids, outputRows, inputRows[1..]);
    r := Success((ids, rows));
  }
}
