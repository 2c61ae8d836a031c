/** The transaction details sheet
    (components/tracking/transaction-details-sheet.tsx): the six-step
    lifecycle timeline derived from one transaction, and the status badge. */
module DetailsSheet {
  import opened Wrappers
  import opened Domain

  const DayMs: int := 24 * 60 * 60 * 1000
  /** How long before the borrow the item is shown as manufactured. */
  const ManufacturedOffsetMs: int := 30 * DayMs
  /** How long before the borrow the item is shown as assigned to a partner. */
  const AssignedOffsetMs: int := 7 * DayMs

  /** A step of the timeline; `name` is the source's `label`. */
  datatype TimelineStep = TimelineStep(name: string, date: Option<int>, completed: bool)

  const TimelineLabels: seq<string> :=
    ["Item Manufactured", "Assigned to Partner", "Borrowed by Customer", "Returned", "Sanitized", "Ready for Reuse"]

  function TimelineSteps(t: Transaction): seq<TimelineStep> {
    [
      TimelineStep("Item Manufactured", Some(t.borrowedAt - ManufacturedOffsetMs), true),
      TimelineStep("Assigned to Partner", Some(t.borrowedAt - AssignedOffsetMs), true),
      TimelineStep("Borrowed by Customer", Some(t.borrowedAt), true),
      TimelineStep("Returned", t.returnedAt, t.returnedAt.Some?),
      TimelineStep("Sanitized", None, StatusName(t.status) == "Sanitizing"),
      TimelineStep("Ready for Reuse", None, false)
    ]
  }

  /** The timeline always has six steps in a fixed label order, the first
      three completed, with strictly increasing dates 30 days and 7 days
      before the borrow and the borrow itself. */
  lemma TimelineShape(t: Transaction)
    ensures var steps := TimelineSteps(t);
      && |steps| == 6
      && (forall i :: 0 <= i < 6 ==> steps[i].name == TimelineLabels[i])
      && steps[0].completed && steps[1].completed && steps[2].completed
      && steps[0].date == Some(t.borrowedAt - 2592000000)
      && steps[1].date == Some(t.borrowedAt - 604800000)
      && steps[2].date == Some(t.borrowedAt)
      && steps[0].date.value < steps[1].date.value < steps[2].date.value
  {
  }

  /** The "Returned" step is completed exactly when a return date is
      present, and carries that date. */
  lemma ReturnedStep(t: Transaction)
    ensures TimelineSteps(t)[3].completed <==> t.returnedAt.Some?
    ensures TimelineSteps(t)[3].date == t.returnedAt
  {
  }

  /** "Sanitized" tests for a status name no status has, and "Ready for
      Reuse" is hard-wired to false: neither step is ever completed. */
  lemma LastStepsNeverCompleted(t: Transaction)
    ensures !TimelineSteps(t)[4].completed
    ensures !TimelineSteps(t)[5].completed
  {
    NoStatusNamed(t.status, "Sanitizing");
  }

  /** Neither name is a status name: it is enough to compare the first
      characters, since every status name starts with R, B, W or D. */
  lemma NoStatusNamed(s: TransactionStatus, name: string)
    requires name == "Sanitizing" || name == "Overdue"
    ensures StatusName(s) != name
  {
    assert StatusName(s)[0] != name[0];
  }

  const GreenBadge := "bg-green-100 text-green-800 dark:bg-green-900 dark:text-green-300"
  const RedBadge := "bg-red-100 text-red-800 dark:bg-red-900 dark:text-red-300"

  /** The badge class: green for "Returned", red for "Overdue", none otherwise. */
  function BadgeClass(statusName: string): string {
    if statusName == "Returned" then GreenBadge
    else if statusName == "Overdue" then RedBadge
    else ""
  }

  /** For a transaction the badge is green iff it is Returned; it is never
      red, because no status is named "Overdue"; otherwise it is empty. */
  lemma BadgeRule(t: Transaction)
    ensures BadgeClass(StatusName(t.status)) == GreenBadge <==> t.status == Returned
    ensures BadgeClass(StatusName(t.status)) != RedBadge
    ensures t.status != Returned ==> BadgeClass(StatusName(t.status)) == ""
  {
    NoStatusNamed(t.status, "Overdue");
    assert t.status != Returned ==> StatusName(t.status) != "Returned";
  }

  /** What the sheet shows; the remaining fields are rendered as they are. */
  datatype SheetView = SheetView(badgeClass: string, steps: seq<TimelineStep>)

  function Render(transaction: Option<Transaction>): (r: Option<SheetView>)
    ensures r.None? <==> transaction.None?
    ensures r.Some? ==> |r.value.steps| == 6
  {
    match transaction
    case None => None
    case Some(t) => Some(SheetView(BadgeClass(StatusName(t.status)), TimelineSteps(t)))
  }
}
