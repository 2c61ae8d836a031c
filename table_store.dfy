/** Per-namespace table preferences (stores/table-store.ts): a map from a
    table's namespace to its column visibility, sorting, filters and
    pagination, read with a default on a miss and written field by field. */
module Tables {
  import opened Json

  datatype ColumnSort = ColumnSort(id: string, desc: bool)
  datatype ColumnFilter = ColumnFilter(id: string, value: Json)
  datatype Pagination = Pagination(pageIndex: int, pageSize: int)

  datatype TablePrefs = TablePrefs(
    columnVisibility: map<string, bool>,
    sorting: seq<ColumnSort>,
    columnFilters: seq<ColumnFilter>,
    pagination: Pagination)

  /** `defaultTableState` */
  const DefaultPrefs := TablePrefs(map[], [], [], Pagination(0, 10))

  /** A write of one of the four fields. */
  datatype FieldWrite =
    | SetVisibility(visibility: map<string, bool>)
    | SetSorting(sorting: seq<ColumnSort>)
    | SetFilters(filters: seq<ColumnFilter>)
    | SetPagination(pagination: Pagination)

  /** `tables[namespace] || defaultTableState`: a stored entry is an object
      and so always truthy. */
  function Lookup(tables: map<string, TablePrefs>, ns: string): (r: TablePrefs)
    ensures ns !in tables ==> r == DefaultPrefs
    ensures ns in tables ==> r == tables[ns]
  {
    if ns in tables then tables[ns] else DefaultPrefs
  }

  /** `{ ...entry, <field>: value }` */
  function WithField(prefs: TablePrefs, w: FieldWrite): TablePrefs {
    match w
    case SetVisibility(v) => prefs.(columnVisibility := v)
    case SetSorting(s) => prefs.(sorting := s)
    case SetFilters(f) => prefs.(columnFilters := f)
    case SetPagination(p) => prefs.(pagination := p)
  }

  /** `{ ...tables, [ns]: { ...(tables[ns] || defaultTableState), <field>: value } }` */
  function Write(tables: map<string, TablePrefs>, ns: string, w: FieldWrite): map<string, TablePrefs> {
    tables[ns := WithField(Lookup(tables, ns), w)]
  }

  /** The field a write reads back as. */
  predicate Holds(prefs: TablePrefs, w: FieldWrite) {
    match w
    case SetVisibility(v) => prefs.columnVisibility == v
    case SetSorting(s) => prefs.sorting == s
    case SetFilters(f) => prefs.columnFilters == f
    case SetPagination(p) => prefs.pagination == p
  }

  /** Which of the four fields a write touches. */
  function FieldOf(w: FieldWrite): nat {
    match w
    case SetVisibility(_) => 0
    case SetSorting(_) => 1
    case SetFilters(_) => 2
    case SetPagination(_) => 3
  }

  /** After a write, reading the namespace gives back the written value, and
      the entry's other fields keep their previous values, or the defaults
      when the namespace was new. */
  lemma ReadAfterWrite(tables: map<string, TablePrefs>, ns: string, w: FieldWrite, other: FieldWrite)
    requires FieldOf(other) != FieldOf(w)
    ensures Holds(Lookup(Write(tables, ns, w), ns), w)
    ensures Holds(Lookup(tables, ns), other) <==> Holds(Lookup(Write(tables, ns, w), ns), other)
    ensures ns !in tables ==> (Holds(DefaultPrefs, other) <==> Holds(Lookup(Write(tables, ns, w), ns), other))
  {
  }

  /** A write leaves every other namespace's entry, present or not, as it was. */
  lemma WriteIsLocal(tables: map<string, TablePrefs>, ns: string, w: FieldWrite, other: string)
    requires other != ns
    ensures other in Write(tables, ns, w) <==> other in tables
    ensures Lookup(Write(tables, ns, w), other) == Lookup(tables, other)
  {
  }

  /** Each setter is idempotent. */
  lemma WriteIdempotent(tables: map<string, TablePrefs>, ns: string, w: FieldWrite)
    ensures Write(Write(tables, ns, w), ns, w) == Write(tables, ns, w)
  {
    assert WithField(WithField(Lookup(tables, ns), w), w) == WithField(Lookup(tables, ns), w);
  }

  /** Writes of different fields, or to different namespaces, commute. */
  lemma WritesCommute(tables: map<string, TablePrefs>, ns1: string, w1: FieldWrite, ns2: string, w2: FieldWrite)
    requires ns1 != ns2 || FieldOf(w1) != FieldOf(w2)
    ensures Write(Write(tables, ns1, w1), ns2, w2) == Write(Write(tables, ns2, w2), ns1, w1)
  {
    if ns1 == ns2 {
      var e := Lookup(tables, ns1);
      assert WithField(WithField(e, w1), w2) == WithField(WithField(e, w2), w1);
    } else {
      var a := Write(Write(tables, ns1, w1), ns2, w2);
      var b := Write(Write(tables, ns2, w2), ns1, w1);
      assert a.Keys == b.Keys;
      forall k | k in a.Keys ensures a[k] == b[k] {
      }
    }
  }

  class TableStore {
    var tables: map<string, TablePrefs>

    constructor ()
      ensures tables == map[]
    {
      tables := map[];
    }

    method SetColumnVisibility(ns: string, visibility: map<string, bool>)
      modifies this
      ensures tables == Write(old(tables), ns, SetVisibility(visibility))
    {
      tables := Write(tables, ns, SetVisibility(visibility));
    }

    method SetSorting(ns: string, sorting: seq<ColumnSort>)
      modifies this
      ensures tables == Write(old(tables), ns, FieldWrite.SetSorting(sorting))
    {
      tables := Write(tables, ns, FieldWrite.SetSorting(sorting));
    }

    method SetColumnFilters(ns: string, filters: seq<ColumnFilter>)
      modifies this
      ensures tables == Write(old(tables), ns, SetFilters(filters))
    {
      tables := Write(tables, ns, SetFilters(filters));
    }

    method SetPagination(ns: string, pagination: Pagination)
      modifies this
      ensures tables == Write(old(tables), ns, FieldWrite.SetPagination(pagination))
    {
      tables := Write(tables, ns, FieldWrite.SetPagination(pagination));
    }

    /** The saved entry for a namespace, or the defaults for one never set. */
    function GetTableState(ns: string): (r: TablePrefs)
      reads this
      ensures ns !in tables ==> r == DefaultPrefs
      ensures ns in tables ==> r == tables[ns]
    {
      Lookup(tables, ns)
    }
  }
}
