/** The core records of lib/types.ts: transactions and their status enum,
    and the demo account roles. Dates are milliseconds since the epoch. */
module Domain {
  import opened Wrappers

  datatype TransactionStatus = Ready | Borrowed | Returned | Washing | Damaged | Retired

  const AllStatuses: seq<TransactionStatus> := [Ready, Borrowed, Returned, Washing, Damaged, Retired]

  /** The string literal each status is in the source. */
  function StatusName(s: TransactionStatus): string {
    match s
    case Ready => "Ready"
    case Borrowed => "Borrowed"
    case Returned => "Returned"
    case Washing => "Washing"
    case Damaged => "Damaged"
    case Retired => "Retired"
  }

  lemma AllStatusesComplete(s: TransactionStatus)
    ensures s in AllStatuses
  {
  }

  /** A borrow/return record. Optional fields of the source are `Option`s. */
  datatype Transaction = Transaction(
    id: string,
    itemId: string,
    partnerId: string,
    borrowerAnonId: string,
    status: TransactionStatus,
    borrowedAt: int,
    dueAt: int,
    returnedAt: Option<int>,
    notes: Option<string>)

  /** The account role of lib/types.ts, used by the mock auth store. */
  datatype DemoRole = DemoAdmin | Manager | Staff
}
