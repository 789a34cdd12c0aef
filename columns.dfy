/**
 * The two table layouts of processor.go: the column positions of the input
 * ("before EOD") and output ("after EOD") tables, and their fixed headers.
 */
module Columns {

  // Input table columns.
  const InId: nat := 0
  const InName: nat := 1
  const InAge: nat := 2
  const InBalanced: nat := 3
  const InPreviousBalanced: nat := 4
  const InAverageBalanced: nat := 5
  const InFreeTransfer: nat := 6

  // Output table columns.
  const OutId: nat := 0
  const OutName: nat := 1
  const OutAge: nat := 2
  const OutBalanced: nat := 3
  const OutNo2BThread: nat := 4
  const OutNo3Thread: nat := 5
  const OutPreviousBalanced: nat := 6
  const OutAverageBalanced: nat := 7
  const OutNo1Thread: nat := 8
  const OutFreeTransfer: nat := 9
  const OutNo2AThread: nat := 10

  const BeforeEodHeader: seq<string> :=
    ["id", "Nama", "Age", "Balanced", "Previous Balanced", "Average Balanced", "Free Transfer"]

  const AfterEodHeader: seq<string> :=
    ["id", "Nama", "Age", "Balanced", "No 2b Thread-No", "No 3 Thread-No", "Previous Balanced",
     "Average Balanced", "No 1 Thread-No", "Free Transfer", "No 2a Thread-No"]

  const InputWidth: nat := |BeforeEodHeader|
  const OutputWidth: nat := |AfterEodHeader|

  /** The four output columns that hold worker ids (or an error text). */
  predicate IsAuditColumn(c: nat) {
    c == OutNo1Thread || c == OutNo2AThread || c == OutNo2BThread || c == OutNo3Thread
  }
}
