/**
 * The writer stage (writer.go), the finish sink of every record: it formats
 * the record's numbers and worker ids into the record's output row, or writes
 * the error text into the first audit column whose marker is still zero,
 * detaches the finish sink and counts the record as done.
 */
module Writer {
  import opened Wrappers
  import opened GoInt
  import opened Strconv
  import opened Columns
  import opened Pipeline
  import opened Sync

  /** The column that receives the error text: the first stage, in chain order, whose marker is still zero. */
  function ErrorColumn(s: RowState): (c: nat)
    ensures IsAuditColumn(c) && c < OutputWidth
    ensures s.threadNo1 == 0 ==> c == OutNo1Thread
    ensures s.threadNo1 != 0 && s.threadNo2A == 0 ==> c == OutNo2AThread
    ensures s.threadNo1 != 0 && s.threadNo2A != 0 && s.threadNo2B == 0 ==> c == OutNo2BThread
    ensures s.threadNo1 != 0 && s.threadNo2A != 0 && s.threadNo2B != 0 ==> c == OutNo3Thread
  {
    if s.threadNo1 == 0 then OutNo1Thread
    else if s.threadNo2A == 0 then OutNo2AThread
    else if s.threadNo2B == 0 then OutNo2BThread
    else OutNo3Thread
  }

  /** The columns a successful record overwrites. */
  predicate IsWrittenColumn(c: nat) {
    c == OutBalanced || c == OutAverageBalanced || c == OutFreeTransfer || IsAuditColumn(c)
  }

  /** The output row after Writer.Execute. */
  function WriteRow(row: seq<string>, s: RowState): (r: seq<string>)
    requires |row| >= OutputWidth
    ensures |r| == |row|
    ensures s.error.Some? ==> r == row[ErrorColumn(s) := s.error.value]
    ensures s.error.None? ==>
              && r[OutBalanced] == Itoa(s.balanced)
              && r[OutAverageBalanced] == Itoa(s.averageBalanced)
              && r[OutFreeTransfer] == Itoa(s.freeTransfer)
              && r[OutNo1Thread] == Itoa(s.threadNo1)
              && r[OutNo2AThread] == Itoa(s.threadNo2A)
              && r[OutNo2BThread] == Itoa(s.threadNo2B)
              && r[OutNo3Thread] == Itoa(s.threadNo3)
    ensures forall c :: 0 <= c < |row| && !IsWrittenColumn(c) ==> r[c] == row[c]
  {
    if s.error.Some? then
      row[ErrorColumn(s) := s.error.value]
    else
      row[OutBalanced := Itoa(s.balanced)]
         [OutAverageBalanced := Itoa(s.averageBalanced)]
         [OutFreeTransfer := Itoa(s.freeTransfer)]
         [OutNo1Thread := Itoa(s.threadNo1)]
         [OutNo2AThread := Itoa(s.threadNo2A)]
         [OutNo2BThread := Itoa(s.threadNo2B)]
         [OutNo3Thread := Itoa(s.threadNo3)]
  }

  class Writer {
    const waitGroup: WaitGroup

    constructor (waitGroup: WaitGroup)
      ensures this.waitGroup == waitGroup
    {
      this.waitGroup := waitGroup;
    }

    method Execute(workerID: WorkerId, data: EODRowData)
      requires data.outputRow.Length >= OutputWidth
      requires waitGroup.counter >= 1
      modifies data, data.outputRow, waitGroup
      ensures data.outputRow[..] == WriteRow(old(data.outputRow[..]), old(data.State()))
      ensures data.State() == old(data.State())
      ensures !data.finishAttached
      ensures waitGroup.counter == old(waitGroup.counter) - 1
    {
      data.finishAttached := false;
      if data.error.Some? {
        var errorIdx := 0;
        if data.threadNo1 == 0 {
          errorIdx := OutNo1Thread;
        } else if data.threadNo2A == 0 {
          errorIdx := OutNo2AThread;
        } else if data.threadNo2B == 0 {
          errorIdx := OutNo2BThread;
        } else {
          errorIdx := OutNo3Thread;
        }
        data.outputRow[errorIdx] := data.error.value;
      } else {
        var outputRow := data.outputRow;
        outputRow[OutBalanced] := Itoa(data.balanced);
        outputRow[OutAverageBalanced] := Itoa(data.averageBalanced);
        outputRow[OutFreeTransfer] := Itoa(data.freeTransfer);
        outputRow[OutNo1Thread] := Itoa(data.threadNo1);
        outputRow[OutNo2AThread] := Itoa(data.threadNo2A);
        outputRow[OutNo2BThread] := Itoa(data.threadNo2B);
        outputRow[OutNo3Thread] := Itoa(data.threadNo3);
      }
      waitGroup.Done();
    }
  }

  /** Writing the same record twice leaves the row as writing it once. */
  lemma WriteRowIdempotent(row: seq<string>, s: RowState)
    requires |row| >= OutputWidth
    ensures WriteRow(WriteRow(row, s), s) == WriteRow(row, s)
  {
  }

  /** On success, the numbers the writer formats read back, through Atoi, as the record's values. */
  lemma WrittenNumbersParseBack(row: seq<string>, s: RowState)
    requires |row| >= OutputWidth && s.error.None?
    requires IsInt64(s.balanced) && IsInt64(s.averageBalanced) && IsInt64(s.freeTransfer)
    ensures var r := WriteRow(row, s);
            && Atoi(r[OutBalanced]) == Success(s.balanced)
            && Atoi(r[OutAverageBalanced]) == Success(s.averageBalanced)
            && Atoi(r[OutFreeTransfer]) == Success(s.freeTransfer)
  {
    AtoiItoa(s.balanced);
    AtoiItoa(s.averageBalanced);
    AtoiItoa(s.freeTransfer);
  }

  /** The decimal texts of the writer's success example. */
  lemma ExampleTexts()
    ensures Itoa(1) == "1" && Itoa(3) == "3" && Itoa(4) == "4"
    ensures Itoa(11) == "11" && Itoa(21) == "21" && Itoa(31) == "31" && Itoa(41) == "41"
  {
  }

  /**
   * A successful record with every marker set: each number lands in its own
   * column, and the id, name, age and previous-balance columns keep the
   * template's texts although the record's previous balance is 2.
   */
  lemma WriteSuccessExample()
    ensures WriteRow(["1", "Test 1", "24", "176", "", "", "100", "125", "", "3", ""],
                     RowState(1, 1, 2, 3, 4, 11, 21, 31, 41, None))
            == ["1", "Test 1", "24", "3", "31", "41", "100", "1", "11", "4", "21"]
  {
    ExampleTexts();
    assert !IsWrittenColumn(0) && !IsWrittenColumn(1) && !IsWrittenColumn(2) && !IsWrittenColumn(6);
  }

  /** A failed record whose four markers are all set: the error text goes to the No 3 column only. */
  lemma WriteErrorExample()
    ensures WriteRow(["1", "Test 1", "24", "176", "", "", "100", "125", "", "3", ""],
                     RowState(1, 1, 2, 3, 4, 11, 21, 31, 41, Some("an error")))
            == ["1", "Test 1", "24", "176", "", "an error", "100", "125", "", "3", ""]
  {
    assert ErrorColumn(RowState(1, 1, 2, 3, 4, 11, 21, 31, 41, Some("an error"))) == OutNo3Thread;
  }
}
