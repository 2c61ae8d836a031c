/** The transaction table's columns (components/columns.tsx): which row
    menu items are offered for a status, the overdue rule and the status
    colours, and the status state machine the menu drives through the
    tracking store. */
module Columns {
  import opened Wrappers
  import opened Domain
  import Tracking

  /** The Tailwind colour family of each status's badge. */
  function ColorFamily(s: TransactionStatus): string {
    match s
    case Ready => "green"
    case Borrowed => "blue"
    case Returned => "yellow"
    case Washing => "purple"
    case Damaged => "red"
    case Retired => "gray"
  }

  /** Badge classes per status (`statusColors`): every status has one, the
      same four shades of its family. */
  function StatusColor(s: TransactionStatus): (c: string)
    ensures c != ""
  {
    var f := ColorFamily(s);
    "bg-" + f + "-100 text-" + f + "-800 dark:bg-" + f + "-900 dark:text-" + f + "-300"
  }

  /** A column definition; `None` means the flag is left to the table
      library, whose default is `true`. */
  datatype ColumnDef = ColumnDef(id: string, enableSorting: Option<bool>, enableHiding: Option<bool>)

  predicate Sortable(c: ColumnDef) { c.enableSorting.GetOr(true) }
  predicate Hideable(c: ColumnDef) { c.enableHiding.GetOr(true) }

  const TransactionColumns: seq<ColumnDef> := [
    ColumnDef("select", Some(false), Some(false)),
    ColumnDef("id", None, None),
    ColumnDef("itemId", None, None),
    ColumnDef("borrowerAnonId", None, None),
    ColumnDef("partnerId", None, None),
    ColumnDef("status", None, None),
    ColumnDef("borrowedAt", None, None),
    ColumnDef("dueAt", None, None),
    ColumnDef("returnedAt", None, None),
    ColumnDef("notes", None, None),
    ColumnDef("actions", None, Some(false))
  ]

  /** "select" is neither sortable nor hideable, "actions" is not hideable,
      and every other column can be hidden. */
  lemma ColumnFlags(k: nat)
    requires k < |TransactionColumns|
    ensures var c := TransactionColumns[k];
      && (c.id == "select" ==> !Sortable(c) && !Hideable(c))
      && (c.id == "actions" ==> !Hideable(c))
      && (!Hideable(c) <==> c.id == "select" || c.id == "actions")
  {
  }

  /** The row menu's items, in menu order. */
  datatype MenuItem = ViewDetails | MarkReturned | MarkDamaged | MarkWashing

  function MenuItems(s: TransactionStatus): seq<MenuItem> {
    [ViewDetails]
    + (if s == Borrowed then [MarkReturned] else [])
    + (if s != Damaged && s != Retired then [MarkDamaged] else [])
    + (if s == Returned then [MarkWashing] else [])
  }

  /** Which items the menu offers for each status. */
  lemma MenuOffers(s: TransactionStatus)
    ensures MenuItems(s)[0] == ViewDetails
    ensures MarkReturned in MenuItems(s) <==> s == Borrowed
    ensures MarkDamaged in MenuItems(s) <==> s != Damaged && s != Retired
    ensures MarkWashing in MenuItems(s) <==> s == Returned
  {
  }

  /** Damaged and Retired rows offer no status-changing item. */
  lemma FinalStatusMenu(s: TransactionStatus)
    requires s == Damaged || s == Retired
    ensures MenuItems(s) == [ViewDetails]
  {
  }

  /** The store action a menu item triggers, with the clock at the click. */
  function StoreAction(item: MenuItem, now: int): Option<Tracking.Action> {
    match item
    case ViewDetails => None
    case MarkReturned => Some(Tracking.MarkReturned(now))
    case MarkDamaged => Some(Tracking.MarkDamaged)
    case MarkWashing => Some(Tracking.MarkWashing)
  }

  /** A click on row `row`'s menu. Items the menu does not show for the row's
      status cannot be clicked and change nothing; a click on an offered item
      runs the store action on the row's id, which reaches every entry that
      shares that id. */
  datatype Click = Click(row: nat, item: MenuItem, now: int)

  function ClickRow(ts: seq<Transaction>, c: Click): (r: seq<Transaction>)
    ensures |r| == |ts|
  {
    if c.row < |ts| && c.item in MenuItems(ts[c.row].status) && StoreAction(c.item, c.now).Some? then
      Tracking.MapMatching(ts, ts[c.row].id, StoreAction(c.item, c.now).value)
    else ts
  }

  function RunClicks(ts: seq<Transaction>, clicks: seq<Click>): (r: seq<Transaction>)
    ensures |r| == |ts|
    decreases clicks
  {
    if clicks == [] then ts else RunClicks(ClickRow(ts, clicks[0]), clicks[1..])
  }

  predicate UniqueIds(ts: seq<Transaction>) {
    forall i, j :: 0 <= i < j < |ts| ==> ts[i].id != ts[j].id
  }

  /** Menu clicks never change any transaction's id. */
  lemma ClickKeepsIds(ts: seq<Transaction>, c: Click, i: nat)
    requires i < |ts|
    ensures ClickRow(ts, c)[i].id == ts[i].id
  {
    if c.row < |ts| && c.item in MenuItems(ts[c.row].status) && StoreAction(c.item, c.now).Some? {
      Tracking.MapMatchingAt(ts, ts[c.row].id, StoreAction(c.item, c.now).value, i);
    }
  }

  /** With unique ids, one click never moves a Damaged or Retired row. */
  lemma ClickKeepsFinal(ts: seq<Transaction>, c: Click, j: nat)
    requires UniqueIds(ts)
    requires j < |ts| && (ts[j].status == Damaged || ts[j].status == Retired)
    ensures ClickRow(ts, c)[j].status == ts[j].status
  {
    if c.row < |ts| && c.item in MenuItems(ts[c.row].status) && StoreAction(c.item, c.now).Some? {
      Tracking.MapMatchingAt(ts, ts[c.row].id, StoreAction(c.item, c.now).value, j);
      if c.row == j {
        FinalStatusMenu(ts[j].status);
      }
    }
  }

  /** With unique ids, no sequence of menu clicks moves a Damaged or Retired
      row out of its status. */
  lemma {:induction false} FinalStatusesStay(ts: seq<Transaction>, clicks: seq<Click>, j: nat)
    requires UniqueIds(ts)
    requires j < |ts| && (ts[j].status == Damaged || ts[j].status == Retired)
    ensures RunClicks(ts, clicks)[j].status == ts[j].status
    decreases clicks
  {
    if clicks != [] {
      var next := ClickRow(ts, clicks[0]);
      ClickKeepsFinal(ts, clicks[0], j);
      forall a, b | 0 <= a < b < |next| ensures next[a].id != next[b].id {
        ClickKeepsIds(ts, clicks[0], a);
        ClickKeepsIds(ts, clicks[0], b);
      }
      FinalStatusesStay(next, clicks[1..], j);
    }
  }

  /** Without unique ids the store reaches every row sharing the clicked
      row's id: marking a Borrowed row damaged also damages a Retired row
      with the same id. */
  lemma SharedIdReachesRetiredRow()
    ensures var ts := [Transaction("T", "I1", "P", "B", Borrowed, 0, 1, None, None),
                       Transaction("T", "I2", "P", "B", Retired, 0, 1, None, None)];
      ClickRow(ts, Click(0, MarkDamaged, 5))[1].status == Damaged
  {
    var ts := [Transaction("T", "I1", "P", "B", Borrowed, 0, 1, None, None),
               Transaction("T", "I2", "P", "B", Retired, 0, 1, None, None)];
    assert MarkDamaged in MenuItems(Borrowed);
    Tracking.MapMatchingAt(ts, "T", Tracking.MarkDamaged, 1);
  }

  /** A row is overdue when its due date is strictly before now and it has
      not been returned. */
  predicate IsOverdue(t: Transaction, now: int) {
    t.dueAt < now && StatusName(t.status) != "Returned"
  }

  lemma OverdueRule(t: Transaction, now: int)
    ensures IsOverdue(t, now) <==> t.dueAt < now && t.status != Returned
  {
  }

  /** Once the store marks an entry returned it is not overdue at any later
      clock. */
  lemma MarkedReturnedNeverOverdue(ts: seq<Transaction>, id: string, now: int, later: int, i: nat)
    requires i < |ts| && ts[i].id == id
    ensures !IsOverdue(Tracking.MapMatching(ts, id, Tracking.MarkReturned(now))[i], later)
  {
    Tracking.MapMatchingAt(ts, id, Tracking.MarkReturned(now), i);
  }
}
