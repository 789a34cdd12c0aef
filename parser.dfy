/**
 * The parser stage (parser.go): reads balance, previous balance, free
 * transfer and average balance from the input row, in that order, and either
 * stores all four or records the first parse error and sends the record
 * straight to its finish sink.
 */
module Parser {
  import opened Wrappers
  import opened GoInt
  import opened Strconv
  import opened Columns
  import opened Pipeline

  datatype Parsed = Parsed(balanced: int, previousBalanced: int, freeTransfer: int, averageBalanced: int)

  /** The four Atoi calls of Parser.Execute; the first failing column, in call order, supplies the error. */
  function ParseFields(row: seq<string>): (r: Result<Parsed, string>)
    requires |row| >= InputWidth
    ensures Atoi(row[InBalanced]).Failure? ==> r == Failure(Atoi(row[InBalanced]).error)
    ensures Atoi(row[InBalanced]).Success? && Atoi(row[InPreviousBalanced]).Failure? ==>
              r == Failure(Atoi(row[InPreviousBalanced]).error)
    ensures Atoi(row[InBalanced]).Success? && Atoi(row[InPreviousBalanced]).Success? &&
            Atoi(row[InFreeTransfer]).Failure? ==>
              r == Failure(Atoi(row[InFreeTransfer]).error)
    ensures Atoi(row[InBalanced]).Success? && Atoi(row[InPreviousBalanced]).Success? &&
            Atoi(row[InFreeTransfer]).Success? && Atoi(row[InAverageBalanced]).Failure? ==>
              r == Failure(Atoi(row[InAverageBalanced]).error)
    ensures r.Success? ==>
              && Atoi(row[InBalanced]) == Success(r.value.balanced)
              && Atoi(row[InPreviousBalanced]) == Success(r.value.previousBalanced)
              && Atoi(row[InFreeTransfer]) == Success(r.value.freeTransfer)
              && Atoi(row[InAverageBalanced]) == Success(r.value.averageBalanced)
  {
    var balanced :- Atoi(row[InBalanced]);
    var previousBalanced :- Atoi(row[InPreviousBalanced]);
    var freeTransfer :- Atoi(row[InFreeTransfer]);
    var averageBalanced :- Atoi(row[InAverageBalanced]);
    Success(Parsed(balanced, previousBalanced, freeTransfer, averageBalanced))
  }

  /** The effect of Parser.Execute on the record's values: the parsed numbers, or the error and nothing else. */
  function ParseStep(s: RowState, row: seq<string>): (t: RowState)
    requires |row| >= InputWidth
    ensures ParseFields(row).Failure? ==> t == s.(error := Some(ParseFields(row).error))
    ensures ParseFields(row).Success? ==>
              var p := ParseFields(row).value;
              t == s.(balanced := p.balanced, previousBalanced := p.previousBalanced,
                      freeTransfer := p.freeTransfer, averageBalanced := p.averageBalanced)
    ensures t.threadNo1 == s.threadNo1 && t.threadNo2A == s.threadNo2A
    ensures t.threadNo2B == s.threadNo2B && t.threadNo3 == s.threadNo3
  {
    match ParseFields(row)
    case Failure(e) => s.(error := Some(e))
    case Success(p) =>
      s.(balanced := p.balanced, previousBalanced := p.previousBalanced,
         freeTransfer := p.freeTransfer, averageBalanced := p.averageBalanced)
  }

  /** Where Parser.Execute sends the record: on to the next stage, or to the finish sink after an error. */
  function ParseRoute(row: seq<string>): (r: Route)
    requires |row| >= InputWidth
    ensures r == ToNext <==>
              && Atoi(row[InBalanced]).Success? && Atoi(row[InPreviousBalanced]).Success?
              && Atoi(row[InFreeTransfer]).Success? && Atoi(row[InAverageBalanced]).Success?
  {
    if ParseFields(row).Success? then ToNext else ToFinish
  }

  /** Parser.Execute; the parser's `next` channel is always wired. */
  method Execute(workerID: WorkerId, data: EODRowData) returns (route: Route)
    requires |data.inputRow| >= InputWidth
    requires ParseFields(data.inputRow).Failure? ==> data.finishAttached
    modifies data
    ensures data.State() == ParseStep(old(data.State()), data.inputRow)
    ensures route == ParseRoute(data.inputRow)
    ensures data.finishAttached == old(data.finishAttached)
  {
    var inputRow := data.inputRow;
    var balanced := Atoi(inputRow[InBalanced]);
    if balanced.Failure? {
      assert ParseFields(inputRow) == Failure(balanced.error);
      data.error := Some(balanced.error);
      return ToFinish;
    }
    var previousBalanced := Atoi(inputRow[InPreviousBalanced]);
    if previousBalanced.Failure? {
      assert ParseFields(inputRow) == Failure(previousBalanced.error);
      data.error := Some(previousBalanced.error);
      return ToFinish;
    }
    var freeTransfer := Atoi(inputRow[InFreeTransfer]);
    if freeTransfer.Failure? {
      assert ParseFields(inputRow) == Failure(freeTransfer.error);
      data.error := Some(freeTransfer.error);
      return ToFinish;
    }
    var averageBalance := Atoi(inputRow[InAverageBalanced]);
    if averageBalance.Failure? {
      assert ParseFields(inputRow) == Failure(averageBalance.error);
      data.error := Some(averageBalance.error);
      return ToFinish;
    }
    assert ParseFields(inputRow) ==
      Success(Parsed(balanced.value, previousBalanced.value, freeTransfer.value, averageBalance.value));
    data.balanced := balanced.value;
    data.previousBalanced := previousBalanced.value;
    data.freeTransfer := freeTransfer.value;
    data.averageBalanced := averageBalance.value;
    route := ToNext;
  }

  /** A row whose four numeric columns were formatted by Itoa parses back to exactly those numbers. */
  lemma ParseFormattedRow(row: seq<string>, p: Parsed)
    requires |row| >= InputWidth
    requires IsInt64(p.balanced) && IsInt64(p.previousBalanced)
    requires IsInt64(p.freeTransfer) && IsInt64(p.averageBalanced)
    requires row[InBalanced] == Itoa(p.balanced)
    requires row[InPreviousBalanced] == Itoa(p.previousBalanced)
    requires row[InFreeTransfer] == Itoa(p.freeTransfer)
    requires row[InAverageBalanced] == Itoa(p.averageBalanced)
    ensures ParseFields(row) == Success(p)
  {
    AtoiItoa(p.balanced);
    AtoiItoa(p.previousBalanced);
    AtoiItoa(p.freeTransfer);
    AtoiItoa(p.averageBalanced);
  }

  /**
   * A row parses exactly when its four numeric columns are decimal texts of
   * int64 values, and then to those values.
   */
  lemma ParseSucceeds(row: seq<string>)
    requires |row| >= InputWidth
    ensures ParseFields(row).Success? <==>
              && IsInt64Text(row[InBalanced]) && IsInt64Text(row[InPreviousBalanced])
              && IsInt64Text(row[InFreeTransfer]) && IsInt64Text(row[InAverageBalanced])
    ensures ParseFields(row).Success? ==>
              ParseFields(row).value == Parsed(SignedValue(row[InBalanced]), SignedValue(row[InPreviousBalanced]),
                                               SignedValue(row[InFreeTransfer]), SignedValue(row[InAverageBalanced]))
  {
    AtoiSucceeds(row[InBalanced]);
    AtoiSucceeds(row[InPreviousBalanced]);
    AtoiSucceeds(row[InFreeTransfer]);
    AtoiSucceeds(row[InAverageBalanced]);
  }

  /** A non-numeric balance is the error recorded, whatever the other columns hold. */
  lemma BadBalanceExample()
    ensures ParseFields(["1", "Test 1", "24", "BAD", "3", "4", "5"]) ==
              Failure(AtoiError("BAD", ErrSyntax))
  {
    AtoiBad();
  }
}
