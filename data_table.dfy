/** The data table component (components/tracking/data-table.tsx): local
    sorting, filter, visibility, row-selection and search state seeded from
    the table store, the updater handlers that mirror the first three into
    the store, and the selected-count / selected-uid notification. */
module DataTables {
  import opened Wrappers
  import opened Strings
  import opened Tables

  /** What the table library hands a change handler: a new value, or a
      function of the current one. */
  datatype Updater<!T> = Value(value: T) | Map(f: T -> T)

  /** `typeof updater === "function" ? updater(current) : updater` */
  function Resolve<T>(u: Updater<T>, current: T): T {
    match u
    case Value(v) => v
    case Map(f) => f(current)
  }

  /** A row-selection state, as the keys of the selection object in
      `Object.keys` order with their flags. Keys are row ids, which the
      table library numbers by position in `data`. */
  type Selection = seq<(string, bool)>

  /** Keep the keys that map to true, map each through `uidOf`, drop the
      empty results. */
  function SelectedBy(sel: Selection, uidOf: string -> string): (ids: seq<string>)
    ensures |ids| <= |sel|
    ensures forall k :: 0 <= k < |ids| ==> ids[k] != ""
  {
    if sel == [] then []
    else
      (if sel[0].1 && uidOf(sel[0].0) != "" then [uidOf(sel[0].0)] else [])
      + SelectedBy(sel[1..], uidOf)
  }

  /** A uid is reported exactly when it is non-empty and some key that maps
      to true leads to it. */
  lemma {:induction false} SelectedByMembers(sel: Selection, uidOf: string -> string, uid: string)
    ensures uid in SelectedBy(sel, uidOf) <==>
      uid != "" && exists j :: 0 <= j < |sel| && sel[j].1 && uidOf(sel[j].0) == uid
  {
    if sel != [] {
      var rest := sel[1..];
      SelectedByMembers(rest, uidOf, uid);
      if uid in SelectedBy(rest, uidOf) {
        var j :| 0 <= j < |rest| && rest[j].1 && uidOf(rest[j].0) == uid;
        assert sel[j + 1] == rest[j];
      }
      if uid != "" && exists j :: 0 <= j < |sel| && sel[j].1 && uidOf(sel[j].0) == uid {
        var j :| 0 <= j < |sel| && sel[j].1 && uidOf(sel[j].0) == uid;
        if j > 0 {
          assert rest[j - 1] == sel[j];
        }
      }
    }
  }

  /** The uids come out in key order: the result for a concatenation is the
      concatenation of the results. */
  lemma {:induction false} SelectedByAppend(a: Selection, b: Selection, uidOf: string -> string)
    ensures SelectedBy(a + b, uidOf) == SelectedBy(a, uidOf) + SelectedBy(b, uidOf)
  {
    if a == [] {
      assert a + b == b;
    } else {
      assert (a + b)[0] == a[0];
      assert (a + b)[1..] == a[1..] + b;
      SelectedByAppend(a[1..], b, uidOf);
    }
  }

  /** Two lookups that agree on every key give the same uids. */
  lemma {:induction false} SelectedBySameLookup(sel: Selection, f: string -> string, g: string -> string)
    requires forall j :: 0 <= j < |sel| ==> f(sel[j].0) == g(sel[j].0)
    ensures SelectedBy(sel, f) == SelectedBy(sel, g)
  {
    if sel != [] {
      assert f(sel[0].0) == g(sel[0].0);
      SelectedBySameLookup(sel[1..], f, g);
    }
  }

  /** `selectedCount`: every key of the selection, including those mapped
      to false. */
  function SelectedCount(sel: Selection): nat {
    |sel|
  }

  /** Nothing reported, yet a positive count: deselected keys are counted. */
  lemma CountIncludesDeselected()
    ensures SelectedCount([("0", false)]) == 1
    ensures SelectedIds([("0", false)], ["U0"]) == []
  {
  }

  /** As written: the key is parsed and used to index the table's current
      row model, the rows in their sorted, filtered and paginated order;
      `view[p]` is the position in `data` of the row shown at place `p`. */
  function ViewUid(data: seq<string>, view: seq<nat>, key: string): string {
    match ParseLeadingNat(key)
    case Some(p) => if p < |view| && view[p] < |data| then data[view[p]] else ""
    case None => ""
  }

  function SelectedIdsAsWritten(sel: Selection, data: seq<string>, view: seq<nat>): seq<string> {
    SelectedBy(sel, key => ViewUid(data, view, key))
  }

  /** Corrected: the key is the row's position in `data`, so it indexes the
      data itself. */
  function DataUid(data: seq<string>, key: string): string {
    match ParseLeadingNat(key)
    case Some(i) => if i < |data| then data[i] else ""
    case None => ""
  }

  function SelectedIds(sel: Selection, data: seq<string>): seq<string> {
    SelectedBy(sel, key => DataUid(data, key))
  }

  /** The row keyed by `String(i)` contributes the uid of `data[i]`. */
  lemma DataUidOfRowId(data: seq<string>, i: nat)
    requires i < |data|
    ensures DataUid(data, NatToString(i)) == data[i]
  {
    ParseNatToString(i);
  }

  /** Corrected: a uid is reported iff it is non-empty and it is the uid of
      a data row whose key is selected. */
  lemma SelectedIdsMembers(sel: Selection, data: seq<string>, uid: string)
    ensures uid in SelectedIds(sel, data) <==>
      uid != "" && exists j :: 0 <= j < |sel| && sel[j].1 && DataUid(data, sel[j].0) == uid
  {
    SelectedByMembers(sel, key => DataUid(data, key), uid);
  }

  /** While the view shows every row in data order (no sorting, filtering
      or paging yet), the code as written gives the corrected result. */
  lemma AsWrittenAgreesOnIdentityView(sel: Selection, data: seq<string>, view: seq<nat>)
    requires |view| == |data| && forall p :: 0 <= p < |view| ==> view[p] == p
    ensures SelectedIdsAsWritten(sel, data, view) == SelectedIds(sel, data)
  {
    SelectedBySameLookup(sel, key => ViewUid(data, view, key), key => DataUid(data, key));
  }

  /** Once the view is sorted in reverse, selecting row "0" (data row 0,
      uid "U0") reports "U1", the uid of the row shown first. */
  lemma AsWrittenReportsWrongRow()
    ensures SelectedIdsAsWritten([("0", true)], ["U0", "U1"], [1, 0]) == ["U1"]
    ensures SelectedIds([("0", true)], ["U0", "U1"]) == ["U0"]
  {
    ParseNatToString(0);
    assert NatToString(0) == "0";
  }

  class DataTable {
    const namespace: string
    const store: TableStore
    var sorting: seq<ColumnSort>
    var columnFilters: seq<ColumnFilter>
    var columnVisibility: map<string, bool>
    var rowSelection: Selection
    var globalFilter: string
    /** `initialState.pagination`: handed to the table library once; no
        handler writes a page change back to the store. */
    const initialPagination: Pagination

    /** Local sorting, filters and visibility agree with the store's entry
        for this table's namespace. */
    predicate Mirrored()
      reads this, store
    {
      var saved := Lookup(store.tables, namespace);
      saved.sorting == sorting && saved.columnFilters == columnFilters && saved.columnVisibility == columnVisibility
    }

    /** Mount: seed the local state from the store's saved entry, or the
        defaults. */
    constructor (namespace: string, store: TableStore)
      ensures this.namespace == namespace && this.store == store
      ensures var saved := Lookup(store.tables, namespace);
        && sorting == saved.sorting
        && columnFilters == saved.columnFilters
        && columnVisibility == saved.columnVisibility
        && initialPagination == saved.pagination
      ensures rowSelection == [] && globalFilter == ""
      ensures Mirrored()
    {
      this.namespace := namespace;
      this.store := store;
      var saved := store.GetTableState(namespace);
      sorting := saved.sorting;
      columnFilters := saved.columnFilters;
      columnVisibility := saved.columnVisibility;
      initialPagination := saved.pagination;
      rowSelection := [];
      globalFilter := "";
    }

    method OnSortingChange(u: Updater<seq<ColumnSort>>)
      modifies this, store
      ensures sorting == Resolve(u, old(sorting))
      ensures store.tables == Write(old(store.tables), namespace, FieldWrite.SetSorting(sorting))
      ensures columnFilters == old(columnFilters) && columnVisibility == old(columnVisibility)
      ensures rowSelection == old(rowSelection) && globalFilter == old(globalFilter)
      ensures Lookup(store.tables, namespace).sorting == sorting
      ensures old(Mirrored()) ==> Mirrored()
    {
      var newSorting := Resolve(u, sorting);
      sorting := newSorting;
      store.SetSorting(namespace, newSorting);
    }

    method OnColumnFiltersChange(u: Updater<seq<ColumnFilter>>)
      modifies this, store
      ensures columnFilters == Resolve(u, old(columnFilters))
      ensures store.tables == Write(old(store.tables), namespace, SetFilters(columnFilters))
      ensures sorting == old(sorting) && columnVisibility == old(columnVisibility)
      ensures rowSelection == old(rowSelection) && globalFilter == old(globalFilter)
      ensures Lookup(store.tables, namespace).columnFilters == columnFilters
      ensures old(Mirrored()) ==> Mirrored()
    {
      var newFilters := Resolve(u, columnFilters);
      columnFilters := newFilters;
      store.SetColumnFilters(namespace, newFilters);
    }

    method OnColumnVisibilityChange(u: Updater<map<string, bool>>)
      modifies this, store
      ensures columnVisibility == Resolve(u, old(columnVisibility))
      ensures store.tables == Write(old(store.tables), namespace, SetVisibility(columnVisibility))
      ensures sorting == old(sorting) && columnFilters == old(columnFilters)
      ensures rowSelection == old(rowSelection) && globalFilter == old(globalFilter)
      ensures Lookup(store.tables, namespace).columnVisibility == columnVisibility
      ensures old(Mirrored()) ==> Mirrored()
    {
      var newVisibility := Resolve(u, columnVisibility);
      columnVisibility := newVisibility;
      store.SetColumnVisibility(namespace, newVisibility);
    }

    /** The selection stays local; when the parent supplied a callback it is
        handed the key count and the selected uids. `data` holds each data
        row's `uid` (empty when it has none) and `view` the rows on screen.
        The uids are the corrected, data-indexed ones; they are what the
        code as written sends while the view shows the data in order. */
    method OnRowSelectionChange(u: Updater<Selection>, data: seq<string>, view: seq<nat>, hasCallback: bool)
      returns (notified: Option<(nat, seq<string>)>)
      modifies this
      ensures rowSelection == Resolve(u, old(rowSelection))
      ensures sorting == old(sorting) && columnFilters == old(columnFilters)
      ensures columnVisibility == old(columnVisibility) && globalFilter == old(globalFilter)
      ensures store.tables == old(store.tables)
      ensures notified.Some? <==> hasCallback
      ensures hasCallback ==> notified.value == (SelectedCount(rowSelection), SelectedIds(rowSelection, data))
      ensures hasCallback && |view| == |data| && (forall p :: 0 <= p < |view| ==> view[p] == p) ==>
        notified.value.1 == SelectedIdsAsWritten(rowSelection, data, view)
    {
      var newSelection := Resolve(u, rowSelection);
      rowSelection := newSelection;
      if hasCallback {
        notified := Some((SelectedCount(newSelection), SelectedIds(newSelection, data)));
        if |view| == |data| && forall p :: 0 <= p < |view| ==> view[p] == p {
          AsWrittenAgreesOnIdentityView(newSelection, data, view);
        }
      } else {
        notified := None;
      }
    }

    /** The search box: local only. */
    method OnGlobalFilterChange(u: Updater<string>)
      modifies this
      ensures globalFilter == Resolve(u, old(globalFilter))
      ensures sorting == old(sorting) && columnFilters == old(columnFilters)
      ensures columnVisibility == old(columnVisibility) && rowSelection == old(rowSelection)
      ensures store.tables == old(store.tables)
    {
      globalFilter := Resolve(u, globalFilter);
    }
  }
}
