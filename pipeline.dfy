/**
 * The pipeline package: the record that travels through the stages
 * (EODRowData), the pool-size rule, and the three calculation stages
 * AverageCalculator, BenefitCalculator and BonusDistributor.
 *
 * A stage's Execute changes the record in place and returns where Go would
 * send it next: the next stage's queue when one is wired, otherwise the
 * record's own finish sink.
 */
module Pipeline {
  import opened Wrappers
  import opened GoInt

  /** Workers of a pool are numbered from 1, so a marker still at 0 means no worker of that stage touched the record. */
  type WorkerId = w: int | w >= 1 witness 1

  /** The value fields of an EODRowData: everything but the two row references and the finish sink. */
  datatype RowState = RowState(
    index: int,
    averageBalanced: int,
    previousBalanced: int,
    balanced: int,
    freeTransfer: int,
    threadNo1: int,
    threadNo2A: int,
    threadNo2B: int,
    threadNo3: int,
    error: Option<string>)

  /** A record as the orchestrator dispatches it: all numbers and markers zero, no error. */
  function Dispatched(index: int): RowState {
    RowState(index, 0, 0, 0, 0, 0, 0, 0, 0, None)
  }

  /** One row in flight. `outputRow` is the very array that sits in the output table. */
  class EODRowData {
    const index: int
    const inputRow: seq<string>
    const outputRow: array<string>
    var averageBalanced: int
    var previousBalanced: int
    var balanced: int
    var freeTransfer: int
    var threadNo1: int
    var threadNo2A: int
    var threadNo2B: int
    var threadNo3: int
    /** FinishChannel != nil */
    var finishAttached: bool
    var error: Option<string>

    function State(): RowState
      reads this
    {
      RowState(index, averageBalanced, previousBalanced, balanced, freeTransfer,
               threadNo1, threadNo2A, threadNo2B, threadNo3, error)
    }

    constructor (index: int, inputRow: seq<string>, outputRow: array<string>)
      ensures this.inputRow == inputRow && this.outputRow == outputRow
      ensures State() == Dispatched(index)
      ensures finishAttached
    {
      this.index := index;
      this.inputRow := inputRow;
      this.outputRow := outputRow;
      averageBalanced, previousBalanced, balanced, freeTransfer := 0, 0, 0, 0;
      threadNo1, threadNo2A, threadNo2B, threadNo3 := 0, 0, 0, 0;
      finishAttached := true;
      error := None;
    }
  }

  /** Where a stage hands the record on. */
  datatype Route = ToNext | ToFinish

  /** The forwarding rule shared by the calculation stages. */
  function Forward(hasNext: bool): (r: Route)
    ensures r == ToNext <==> hasNext
    ensures r == ToFinish <==> !hasNext
  {
    if hasNext then ToNext else ToFinish
  }

  /** getOptimumParallelism with the CPU count as a parameter: never fewer than 4 workers. */
  function OptimumParallelism(cpu: int): (n: int)
    ensures n >= 4 && n >= cpu
    ensures cpu >= 4 ==> n == cpu
    ensures n == cpu || n == 4
  {
    if cpu < 4 then 4 else cpu
  }

  /** AverageCalculator: the mean of previous and current balance, truncated as Go's `/` truncates. */
  function AverageStep(s: RowState, w: WorkerId): (t: RowState)
    ensures t.threadNo1 == w
    ensures IsInt64(s.previousBalanced + s.balanced) ==>
              t.averageBalanced == Quo(s.previousBalanced + s.balanced, 2)
    ensures t.averageBalanced == Quo(Wrap(s.previousBalanced + s.balanced), 2)
    ensures t.(averageBalanced := s.averageBalanced, threadNo1 := s.threadNo1) == s
  {
    s.(threadNo1 := w, averageBalanced := Quo(Wrap(s.previousBalanced + s.balanced), 2))
  }

  /**
   * BenefitCalculator: a balance from 100 to 150 earns 5 free transfers,
   * a balance above 150 earns 25 more balance, a lower balance earns nothing.
   */
  function BenefitStep(s: RowState, w: WorkerId): (t: RowState)
    ensures 100 <= s.balanced <= 150 ==> t == s.(freeTransfer := 5, threadNo2A := w)
    ensures s.balanced > 150 ==> t == s.(balanced := Wrap(s.balanced + 25), threadNo2B := w)
    ensures s.balanced < 100 ==> t == s
    ensures t.threadNo2A == s.threadNo2A || t.threadNo2B == s.threadNo2B
  {
    if 100 <= s.balanced <= 150 then s.(threadNo2A := w, freeTransfer := 5)
    else if s.balanced > 150 then s.(threadNo2B := w, balanced := Wrap(s.balanced + 25))
    else s
  }

  /** BonusDistributor: the first 100 data rows of the input earn 10 more balance. */
  function BonusStep(s: RowState, w: WorkerId): (t: RowState)
    ensures s.index < 100 ==> t == s.(balanced := Wrap(s.balanced + 10), threadNo3 := w)
    ensures s.index >= 100 ==> t == s
  {
    if s.index < 100 then s.(threadNo3 := w, balanced := Wrap(s.balanced + 10)) else s
  }

  class AverageCalculator {
    /** next != nil */
    const hasNext: bool

    constructor (hasNext: bool)
      ensures this.hasNext == hasNext
    {
      this.hasNext := hasNext;
    }

    method Execute(workerID: WorkerId, data: EODRowData) returns (route: Route)
      requires !hasNext ==> data.finishAttached
      modifies data
      ensures data.State() == AverageStep(old(data.State()), workerID)
      ensures data.finishAttached == old(data.finishAttached)
      ensures route == Forward(hasNext)
    {
      data.threadNo1 := workerID;
      data.averageBalanced := Quo(Wrap(data.previousBalanced + data.balanced), 2);
      if hasNext {
        route := ToNext;
      } else {
        route := ToFinish;
      }
    }
  }

  class BenefitCalculator {
    const hasNext: bool

    constructor (hasNext: bool)
      ensures this.hasNext == hasNext
    {
      this.hasNext := hasNext;
    }

    method Execute(workerID: WorkerId, data: EODRowData) returns (route: Route)
      requires !hasNext ==> data.finishAttached
      modifies data
      ensures data.State() == BenefitStep(old(data.State()), workerID)
      ensures data.finishAttached == old(data.finishAttached)
      ensures route == Forward(hasNext)
    {
      if 100 <= data.balanced <= 150 {
        data.threadNo2A := workerID;
        data.freeTransfer := 5;
      } else if data.balanced > 150 {
        data.threadNo2B := workerID;
        data.balanced := Wrap(data.balanced + 25);
      }
      if hasNext {
        route := ToNext;
      } else {
        route := ToFinish;
      }
    }
  }

  class BonusDistributor {
    const hasNext: bool

    constructor (hasNext: bool)
      ensures this.hasNext == hasNext
    {
      this.hasNext := hasNext;
    }

    method Execute(workerID: WorkerId, data: EODRowData) returns (route: Route)
      requires !hasNext ==> data.finishAttached
      modifies data
      ensures data.State() == BonusStep(old(data.State()), workerID)
      ensures data.finishAttached == old(data.finishAttached)
      ensures route == Forward(hasNext)
    {
      if data.index < 100 {
        data.threadNo3 := workerID;
        data.balanced := Wrap(data.balanced + 10);
      }
      if hasNext {
        route := ToNext;
      } else {
        route := ToFinish;
      }
    }
  }
}
