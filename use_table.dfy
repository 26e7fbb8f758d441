/**
 * The table hook: column checks reloaded over the defaults, the table data
 * taken from a paginated or plain payload, and the `empty`/`loading` flags
 * around a fetch. The fetch is split into its start and its completion.
 */
module UseTable {

  /** `TableColumnCheck`; the title is kept as text. */
  datatype ColumnCheck = ColumnCheck(key: string, title: string, checked: bool, visible: bool)

  /** What the transformed API response is: a `PaginationData` page, or the rows themselves. */
  datatype ApiData<Row> =
    | PaginationData(data: seq<Row>, pageNum: int, pageSize: int, total: int)
    | Rows(rows: seq<Row>)

  /** `getTableData`; the payload's shape is the one the `pagination` flag declares. */
  function GetTableData<Row>(d: ApiData<Row>, pagination: bool): seq<Row>
    requires pagination <==> d.PaginationData?
  {
    if pagination then d.data else d.rows
  }

  /** `new Map(checks.map(col => [col.key, col.checked]))`: a later check of the same key wins. */
  function CheckMap(checks: seq<ColumnCheck>): map<string, bool> {
    if checks == [] then map[]
    else CheckMap(checks[..|checks| - 1])[checks[|checks| - 1].key := checks[|checks| - 1].checked]
  }

  /** `reloadColumns` on the lists: the defaults, each with the previous `checked` of its key when there is one. */
  function Reloaded(previous: seq<ColumnCheck>, defaults: seq<ColumnCheck>): seq<ColumnCheck> {
    var m := CheckMap(previous);
    seq(|defaults|, i requires 0 <= i < |defaults| =>
      defaults[i].(checked := if defaults[i].key in m then m[defaults[i].key] else defaults[i].checked))
  }

  predicate DistinctKeys(checks: seq<ColumnCheck>) {
    forall i, j :: 0 <= i < j < |checks| ==> checks[i].key != checks[j].key
  }

  /** The map has exactly the keys of the checks, each with the flag of the last check holding it. */
  lemma {:induction false} CheckMapSpec(checks: seq<ColumnCheck>, k: string)
    ensures k in CheckMap(checks) <==> exists j :: 0 <= j < |checks| && checks[j].key == k
    ensures forall j :: 0 <= j < |checks| && checks[j].key == k && (forall l :: j < l < |checks| ==> checks[l].key != k) ==>
      k in CheckMap(checks) && CheckMap(checks)[k] == checks[j].checked
  {
    if checks != [] {
      var init := checks[..|checks| - 1];
      CheckMapSpec(init, k);
      if k in CheckMap(checks) && checks[|checks| - 1].key != k {
        var j :| 0 <= j < |init| && init[j].key == k;
        assert checks[j].key == k;
      }
    }
  }

  /**
   * The reloaded list has the defaults' length and order; every field but
   * `checked` comes from the default; `checked` is the last previous flag
   * of that key, or the default's when no earlier check has the key.
   */
  lemma ReloadedSpec(previous: seq<ColumnCheck>, defaults: seq<ColumnCheck>)
    ensures var r := Reloaded(previous, defaults);
      && |r| == |defaults|
      && (forall i :: 0 <= i < |r| ==> r[i].key == defaults[i].key && r[i].title == defaults[i].title && r[i].visible == defaults[i].visible)
      && (forall i, j ::
            (0 <= i < |r| && 0 <= j < |previous| && previous[j].key == defaults[i].key
             && (forall l :: j < l < |previous| ==> previous[l].key != defaults[i].key))
            ==> r[i].checked == previous[j].checked)
      && (forall i :: 0 <= i < |r| && (forall j :: 0 <= j < |previous| ==> previous[j].key != defaults[i].key) ==>
            r[i] == defaults[i])
  {
    forall k | true {
      CheckMapSpec(previous, k);
    }
  }

  /** With keys that do not repeat, reloading over the same defaults a second time changes nothing. */
  lemma ReloadIdempotent(previous: seq<ColumnCheck>, defaults: seq<ColumnCheck>)
    requires DistinctKeys(defaults)
    ensures Reloaded(Reloaded(previous, defaults), defaults) == Reloaded(previous, defaults)
  {
    var r := Reloaded(previous, defaults);
    forall i | 0 <= i < |defaults|
      ensures Reloaded(r, defaults)[i] == r[i]
    {
      CheckMapSpec(r, defaults[i].key);
      assert forall l :: i < l < |r| ==> r[l].key != defaults[i].key;
    }
  }

  /** Reloading right after the checks were taken from the same defaults keeps them. */
  lemma ReloadFromDefaults(defaults: seq<ColumnCheck>)
    requires DistinctKeys(defaults)
    ensures Reloaded(defaults, defaults) == defaults
  {
    forall i | 0 <= i < |defaults|
      ensures Reloaded(defaults, defaults)[i] == defaults[i]
    {
      CheckMapSpec(defaults, defaults[i].key);
      assert forall l :: i < l < |defaults| ==> defaults[l].key != defaults[i].key;
    }
  }

  /** What an awaited `api()` followed by `transform` came to. */
  datatype Outcome<Row> = Transformed(value: ApiData<Row>) | Threw

  /** The state `useTable(options)` keeps. */
  class Table<Row> {
    var data: seq<Row>
    var empty: bool
    var loading: bool
    var columnChecks: seq<ColumnCheck>
    const pagination: bool

    /** `useTable`: the checks from the defaults, no data, and a first fetch started when `immediate` (the default). */
    constructor(pagination: bool, defaultChecks: seq<ColumnCheck>, immediate: bool)
      ensures this.pagination == pagination && columnChecks == defaultChecks
      ensures data == [] && !empty && loading == immediate
    {
      this.pagination := pagination;
      columnChecks := defaultChecks;
      data := [];
      empty := false;
      loading := false;
      new;
      if immediate {
        StartGetData();
      }
    }

    /** `reloadColumns`, given the current `getColumnChecks(columns())`. */
    method ReloadColumns(defaultChecks: seq<ColumnCheck>)
      modifies this
      ensures columnChecks == Reloaded(old(columnChecks), defaultChecks)
      ensures data == old(data) && empty == old(empty) && loading == old(loading)
    {
      var checkMap: map<string, bool> := map[];
      for i := 0 to |columnChecks|
        invariant checkMap == CheckMap(columnChecks[..i])
      {
        assert columnChecks[..i + 1][..i] == columnChecks[..i];
        checkMap := checkMap[columnChecks[i].key := columnChecks[i].checked];
      }
      assert columnChecks[..|columnChecks|] == columnChecks;
      var next: seq<ColumnCheck> := [];
      for i := 0 to |defaultChecks|
        invariant |next| == i
        invariant forall k :: 0 <= k < i ==> next[k] == Reloaded(columnChecks, defaultChecks)[k]
      {
        var col := defaultChecks[i];
        next := next + [col.(checked := if col.key in checkMap then checkMap[col.key] else col.checked)];
      }
      columnChecks := next;
    }

    /** The synchronous start of `getData()`: loading starts. */
    method StartGetData()
      modifies this
      ensures loading
      ensures data == old(data) && empty == old(empty) && columnChecks == old(columnChecks)
    {
      loading := true;
    }

    /**
     * The rest of `getData()`: the table data and `empty` are set from a
     * transformed payload, and left alone when the API or the transform
     * threw; loading ends in both cases.
     */
    method FinishGetData(outcome: Outcome<Row>)
      requires outcome.Transformed? ==> (pagination <==> outcome.value.PaginationData?)
      modifies this
      ensures !loading && columnChecks == old(columnChecks)
      ensures outcome.Transformed? ==> data == GetTableData(outcome.value, pagination) && (empty <==> |data| == 0)
      ensures outcome.Threw? ==> data == old(data) && empty == old(empty)
    {
      if outcome.Transformed? {
        data := GetTableData(outcome.value, pagination);
        empty := |data| == 0;
      }
      loading := false;
    }
  }

  /** The table data is the page's rows with pagination on, and the payload itself with it off. */
  lemma GetTableDataSpec<Row>(rows: seq<Row>, pageNum: int, pageSize: int, total: int)
    ensures GetTableData(PaginationData(rows, pageNum, pageSize, total), true) == rows
    ensures GetTableData(Rows(rows), false) == rows
  { }
}
