/** The tracking store (stores/tracking-store.ts): a list of transactions
    that every action replaces by a map over the old list. */
module Tracking {
  import opened Wrappers
  import opened Domain

  /** `Partial<Transaction>`: `Some` for each field present in the update.
      For the optional fields, `Some(None)` is a field present with the
      value `undefined`, which the spread copies over. */
  datatype Patch = Patch(
    id: Option<string>,
    itemId: Option<string>,
    partnerId: Option<string>,
    borrowerAnonId: Option<string>,
    status: Option<TransactionStatus>,
    borrowedAt: Option<int>,
    dueAt: Option<int>,
    returnedAt: Option<Option<int>>,
    notes: Option<Option<string>>)

  const EmptyPatch := Patch(None, None, None, None, None, None, None, None, None)

  /** `{ ...t, ...updates }` */
  function Merge(t: Transaction, p: Patch): Transaction {
    Transaction(
      p.id.GetOr(t.id),
      p.itemId.GetOr(t.itemId),
      p.partnerId.GetOr(t.partnerId),
      p.borrowerAnonId.GetOr(t.borrowerAnonId),
      p.status.GetOr(t.status),
      p.borrowedAt.GetOr(t.borrowedAt),
      p.dueAt.GetOr(t.dueAt),
      p.returnedAt.GetOr(t.returnedAt),
      p.notes.GetOr(t.notes))
  }

  /** What an action does to one matching transaction. */
  datatype Action =
    | Update(updates: Patch)
    | MarkReturned(now: int)
    | MarkDamaged
    | MarkWashing

  function Apply(t: Transaction, a: Action): Transaction {
    match a
    case Update(p) => Merge(t, p)
    case MarkReturned(now) => t.(status := Returned, returnedAt := Some(now))
    case MarkDamaged => t.(status := Damaged)
    case MarkWashing => t.(status := Washing)
  }

  /** `transactions.map((t) => (t.id === id ? <action>(t) : t))` */
  function MapMatching(ts: seq<Transaction>, id: string, a: Action): (r: seq<Transaction>)
    ensures |r| == |ts|
  {
    if ts == [] then []
    else [if ts[0].id == id then Apply(ts[0], a) else ts[0]] + MapMatching(ts[1..], id, a)
  }

  /** Every action keeps the length and order of the list: position `i`
      holds the action applied to the old entry when its id matches, and
      the old entry itself otherwise. */
  lemma {:induction false} MapMatchingAt(ts: seq<Transaction>, id: string, a: Action, i: nat)
    requires i < |ts|
    ensures MapMatching(ts, id, a)[i] == if ts[i].id == id then Apply(ts[i], a) else ts[i]
  {
    if i > 0 {
      MapMatchingAt(ts[1..], id, a, i - 1);
    } else if |ts| > 1 {
      MapMatchingAt(ts[1..], id, a, 0);
    }
  }

  /** With an id that matches nothing, every action leaves the list as it was. */
  lemma {:induction false} NoMatchUnchanged(ts: seq<Transaction>, id: string, a: Action)
    requires forall i :: 0 <= i < |ts| ==> ts[i].id != id
    ensures MapMatching(ts, id, a) == ts
  {
    if ts != [] {
      NoMatchUnchanged(ts[1..], id, a);
    }
  }

  /** `updateTransaction` overwrites exactly the fields present in the
      update and keeps every other field. */
  lemma UpdateOverwritesPresentFields(t: Transaction, p: Patch)
    ensures var r := Merge(t, p);
      && (if p.id.Some? then r.id == p.id.value else r.id == t.id)
      && (if p.itemId.Some? then r.itemId == p.itemId.value else r.itemId == t.itemId)
      && (if p.partnerId.Some? then r.partnerId == p.partnerId.value else r.partnerId == t.partnerId)
      && (if p.borrowerAnonId.Some? then r.borrowerAnonId == p.borrowerAnonId.value else r.borrowerAnonId == t.borrowerAnonId)
      && (if p.status.Some? then r.status == p.status.value else r.status == t.status)
      && (if p.borrowedAt.Some? then r.borrowedAt == p.borrowedAt.value else r.borrowedAt == t.borrowedAt)
      && (if p.dueAt.Some? then r.dueAt == p.dueAt.value else r.dueAt == t.dueAt)
      && (if p.returnedAt.Some? then r.returnedAt == p.returnedAt.value else r.returnedAt == t.returnedAt)
      && (if p.notes.Some? then r.notes == p.notes.value else r.notes == t.notes)
  {
  }

  /** An update with no fields changes nothing, and applying the same update
      twice is the same as applying it once. */
  lemma MergeEmptyAndIdempotent(t: Transaction, p: Patch)
    ensures Merge(t, EmptyPatch) == t
    ensures Merge(Merge(t, p), p) == Merge(t, p)
  {
  }

  /** `markReturned` sets the status to Returned and stamps `returnedAt`
      with the clock; `markDamaged` and `markWashing` set only the status. */
  lemma MarkEffects(t: Transaction, now: int)
    ensures Apply(t, MarkReturned(now)) == t.(status := Returned, returnedAt := Some(now))
    ensures Apply(t, MarkDamaged) == t.(status := Damaged)
    ensures Apply(t, MarkWashing) == t.(status := Washing)
    ensures Apply(t, MarkDamaged).returnedAt == t.returnedAt
    ensures Apply(t, MarkWashing).returnedAt == t.returnedAt
  {
  }

  /** No action keeps the id of a marked transaction from matching again. */
  predicate KeepsId(a: Action) {
    !a.Update? || a.updates.id.None?
  }

  /** Applying the same id-preserving action twice is the same as once, when
      the action is idempotent on a single transaction. */
  lemma {:induction false} MapMatchingIdempotent(ts: seq<Transaction>, id: string, a: Action)
    requires KeepsId(a)
    requires !a.MarkReturned?
    ensures MapMatching(MapMatching(ts, id, a), id, a) == MapMatching(ts, id, a)
  {
    if ts != [] {
      MapMatchingIdempotent(ts[1..], id, a);
    }
  }

  /** `markReturned` is not idempotent: a second call re-stamps `returnedAt`. */
  lemma MarkReturnedNotIdempotent()
    ensures var t := Transaction("T1", "I1", "P1", "B1", Borrowed, 0, 10, None, None);
      var once := MapMatching([t], "T1", MarkReturned(100));
      MapMatching(once, "T1", MarkReturned(200)) != once
  {
    var t := Transaction("T1", "I1", "P1", "B1", Borrowed, 0, 10, None, None);
    var once := MapMatching([t], "T1", MarkReturned(100));
    MapMatchingAt([t], "T1", MarkReturned(100), 0);
    MapMatchingAt(once, "T1", MarkReturned(200), 0);
  }

  /** The store checks no current status: a Retired entry can be marked Washing. */
  lemma NoStatusPrecondition(ts: seq<Transaction>, id: string, i: nat)
    requires i < |ts| && ts[i].id == id && ts[i].status == Retired
    ensures MapMatching(ts, id, MarkWashing)[i].status == Washing
  {
    MapMatchingAt(ts, id, MarkWashing, i);
  }

  class TrackingStore {
    var transactions: seq<Transaction>

    /** The source seeds the list with mock data; here it is a parameter. */
    constructor (initial: seq<Transaction>)
      ensures transactions == initial
    {
      transactions := initial;
    }

    method SetTransactions(ts: seq<Transaction>)
      modifies this
      ensures transactions == ts
    {
      transactions := ts;
    }

    method UpdateTransaction(id: string, updates: Patch)
      modifies this
      ensures transactions == MapMatching(old(transactions), id, Update(updates))
    {
      transactions := MapMatching(transactions, id, Update(updates));
    }

    /** `now` is the value of `new Date()` at the call. */
    method MarkReturned(id: string, now: int)
      modifies this
      ensures transactions == MapMatching(old(transactions), id, Action.MarkReturned(now))
    {
      transactions := MapMatching(transactions, id, Action.MarkReturned(now));
    }

    method MarkDamaged(id: string)
      modifies this
      ensures transactions == MapMatching(old(transactions), id, Action.MarkDamaged)
    {
      transactions := MapMatching(transactions, id, Action.MarkDamaged);
    }

    method MarkWashing(id: string)
      modifies this
      ensures transactions == MapMatching(old(transactions), id, Action.MarkWashing)
    {
      transactions := MapMatching(transactions, id, Action.MarkWashing);
    }
  }
}
