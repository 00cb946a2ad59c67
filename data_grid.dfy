// The paged, sortable data grid
// (src/frontend/components/dataGridComponent/DataGridComponent.js): its
// telephone mask and picture URL helpers, the request parameters, the
// returned total, the sort and column handlers, the saved configuration and
// the plain cell formatter. The grid's state hooks are the fields of a class.

module DataGrid {
  import opened Js

  // ---------------------------------------------------------------------
  // applyTelephoneMask

  /** `digits.replace(/(\d{2})(\d{a})(\d{4})/, "($1) $2-$3")`, at the leftmost run of 6 + a digits. */
  function GroupPhone(d: string, a: nat): string
  {
    match FindDigitRun(d, 6 + a, 0)
    case Some(p) => d[..p] + "(" + d[p..p + 2] + ") " + d[p + 2..p + 2 + a] + "-" + d[p + 2 + a..p + 6 + a] + d[p + 6 + a..]
    case None => d
  }

  /** The grid's `applyTelephoneMask`. */
  function GridTelephoneMask(value: JsVal): (r: string)
  {
    if !Truthy(value) then ""
    else
      var d := Digits(ToJsString(value));
      if |d| <= 10 then GroupPhone(d, 4) else GroupPhone(d, 5)
  }

  /** By digit count: fewer than 10 stay bare, 10 give `(AB) CDEF-GHIJ`, 11 or more `(AB) CDEFG-HIJK` and the rest. */
  lemma GridTelephoneMaskLayout(value: JsVal)
    ensures var d := Digits(ToJsString(value));
      var r := GridTelephoneMask(value);
      (!Truthy(value) ==> r == "")
      && (Truthy(value) && |d| < 10 ==> r == d)
      && (Truthy(value) && |d| == 10 ==> r == "(" + d[..2] + ") " + d[2..6] + "-" + d[6..10])
      && (Truthy(value) && |d| >= 11 ==> r == "(" + d[..2] + ") " + d[2..7] + "-" + d[7..11] + d[11..])
  {
    var d := Digits(ToJsString(value));
    GroupPhoneOnDigits(d, 4);
    GroupPhoneOnDigits(d, 5);
    if |d| == 10 {
      assert d[10..] == "";
    }
  }

  /** On a string of digits the run starts at 0: the groups are taken from the front, or nothing changes when too short. */
  lemma GroupPhoneOnDigits(d: string, a: nat)
    requires AllDigits(d)
    ensures |d| >= 6 + a ==> GroupPhone(d, a) == "(" + d[..2] + ") " + d[2..2 + a] + "-" + d[2 + a..6 + a] + d[6 + a..]
    ensures |d| < 6 + a ==> GroupPhone(d, a) == d
  {
    FindDigitRunOnDigits(d, 6 + a);
    if |d| >= 6 + a {
      assert d[..0] == "";
    }
  }

  // ---------------------------------------------------------------------
  // getPictureUrlHelper

  /** `getPictureUrlHelper(picturePath, baseUrl)`; a falsy `baseUrl` is "". */
  function PictureUrl(picturePath: JsVal, baseUrl: string): (r: Option<string>)
    ensures !picturePath.Str? || Trim(picturePath.s) == "" ==> r.None?
    ensures picturePath.Str? && Trim(picturePath.s) != "" && (StartsWith(picturePath.s, "http://") || StartsWith(picturePath.s, "https://"))
      ==> r == Some(picturePath.s)
    ensures r.Some? && !StartsWith(r.value, "http://") && !StartsWith(r.value, "https://") ==>
      baseUrl != "" && picturePath.Str? && EndsWith(r.value, picturePath.s) && StartsWith(r.value, baseUrl)
    ensures picturePath.Str? && Trim(picturePath.s) != "" && !StartsWith(picturePath.s, "http://") && !StartsWith(picturePath.s, "https://") ==>
      (baseUrl == "" ==> r.None?)
      && (baseUrl != "" && EndsWith(baseUrl, "/") ==> r == Some(baseUrl + picturePath.s))
      && (baseUrl != "" && !EndsWith(baseUrl, "/") ==> r == Some(baseUrl + "/" + picturePath.s))
  {
    if !Truthy(picturePath) || !picturePath.Str? || Trim(picturePath.s) == "" then None
    else if StartsWith(picturePath.s, "http://") || StartsWith(picturePath.s, "https://") then Some(picturePath.s)
    else if baseUrl == "" then None
    else
      var finalBase := if EndsWith(baseUrl, "/") then baseUrl else baseUrl + "/";
      assert (finalBase + picturePath.s)[..|baseUrl|] == baseUrl;
      assert (finalBase + picturePath.s)[|finalBase + picturePath.s| - |picturePath.s|..] == picturePath.s;
      Some(finalBase + picturePath.s)
  }

  // ---------------------------------------------------------------------
  // fetchData parameters and the returned total

  /** A value that survives the `extraFetchParams` filter. */
  predicate Sendable(v: JsVal)
  {
    v != Undefined && v != Null && v != Str("")
  }

  /** The extra parameters, in order, without the undefined, null or empty ones. */
  function ExtraParams(extra: seq<(string, JsVal)>): (r: seq<(string, string)>)
    ensures |r| <= |extra|
    decreases |extra|
  {
    if |extra| == 0 then []
    else
      var rest := ExtraParams(extra[1..]);
      if Sendable(extra[0].1) then [(extra[0].0, ToJsString(extra[0].1))] + rest else rest
  }

  /** A pair is sent exactly when some extra parameter with a sendable value gives it. */
  lemma {:induction false} ExtraParamsMembers(extra: seq<(string, JsVal)>, k: string, v: string)
    ensures (k, v) in ExtraParams(extra) <==>
      exists i :: 0 <= i < |extra| && extra[i].0 == k && Sendable(extra[i].1) && ToJsString(extra[i].1) == v
    decreases |extra|
  {
    if |extra| > 0 {
      ExtraParamsMembers(extra[1..], k, v);
      assert forall i :: 1 <= i < |extra| ==> extra[i] == extra[1..][i - 1];
      if (k, v) in ExtraParams(extra[1..]) {
        var i :| 0 <= i < |extra[1..]| && extra[1..][i].0 == k && Sendable(extra[1..][i].1) && ToJsString(extra[1..][i].1) == v;
        assert extra[i + 1] == extra[1..][i];
      }
    }
  }

  /** A numeric parameter as `URLSearchParams` writes it. */
  function NumParam(name: string, n: int): (p: (string, string))
    ensures p.0 == name && p.1 == ToJsString(Num(n))
  {
    (name, ToJsString(Num(n)))
  }

  /** The `group` parameter, sent only in grid view. */
  function GroupParam(group: string, viewMode: string): (r: seq<(string, string)>)
    ensures |r| == if group != "" && viewMode == "grid" then 1 else 0
    ensures |r| == 1 ==> r[0] == ("group", group)
  {
    if group != "" && viewMode == "grid" then [("group", group)] else []
  }

  /** The `search` parameter, sent only when the trimmed filter is not empty. */
  function SearchParam(filter: string): (r: seq<(string, string)>)
    ensures |r| == if Trim(filter) != "" then 1 else 0
    ensures |r| == 1 ==> r[0] == ("search", Trim(filter))
  {
    var t := Trim(filter);
    if t != "" then [("search", t)] else []
  }

  /** The first six parameters of a request, before the extra ones. */
  function BaseParams(page: int, rowsPerPage: int, sortField: string, direction: string, filter: string, group: string, viewMode: string): (r: seq<(string, string)>)
    ensures |r| >= 4
    ensures r[0] == ("startIndex", ToJsString(Num(page * rowsPerPage)))
    ensures r[1] == ("endIndex", ToJsString(Num(page * rowsPerPage + rowsPerPage)))
    ensures r[2] == ("sort", sortField) && r[3] == ("order", direction)
    ensures |r| == 4 + (if group != "" && viewMode == "grid" then 1 else 0) + (if Trim(filter) != "" then 1 else 0)
    ensures group != "" && viewMode == "grid" ==> r[4] == ("group", group)
    ensures Trim(filter) != "" ==> r[|r| - 1] == ("search", Trim(filter))
  {
    var start := page * rowsPerPage;
    [NumParam("startIndex", start), NumParam("endIndex", start + rowsPerPage), ("sort", sortField), ("order", direction)]
      + GroupParam(group, viewMode) + SearchParam(filter)
  }

  /** `fetchData`'s `URLSearchParams`, appended one by one; a falsy search or group is "". */
  method FetchParams(page: int, rowsPerPage: int, sortField: string, direction: string, filter: string, group: string,
                     viewMode: string, extra: seq<(string, JsVal)>) returns (params: seq<(string, string)>)
    ensures params == BaseParams(page, rowsPerPage, sortField, direction, filter, group, viewMode) + ExtraParams(extra)
  {
    var startIndex := page * rowsPerPage;
    params := [NumParam("startIndex", startIndex)];
    params := params + [NumParam("endIndex", startIndex + rowsPerPage)];
    params := params + [("sort", sortField)];
    params := params + [("order", direction)];
    if group != "" && viewMode == "grid" {
      params := params + [("group", group)];
    }
    assert params == [NumParam("startIndex", startIndex), NumParam("endIndex", startIndex + rowsPerPage), ("sort", sortField), ("order", direction)]
      + GroupParam(group, viewMode);
    var search := Trim(filter);
    if search != "" {
      params := params + [("search", search)];
    }
    assert params == BaseParams(page, rowsPerPage, sortField, direction, filter, group, viewMode);
    params := AppendExtra(params, extra);
  }

  /** The `Object.entries(extraFetchParams).forEach` that appends every sendable extra parameter. */
  method AppendExtra(head: seq<(string, string)>, extra: seq<(string, JsVal)>) returns (params: seq<(string, string)>)
    ensures params == head + ExtraParams(extra)
  {
    params := head;
    var i := 0;
    while i < |extra|
      invariant 0 <= i <= |extra|
      invariant params == head + ExtraParams(extra[..i])
    {
      ExtraParamsStep(extra, i);
      var key := extra[i].0;
      var value := extra[i].1;
      if value != Undefined && value != Null && value != Str("") {
        params := params + [(key, ToJsString(value))];
      }
      i := i + 1;
    }
    assert extra[..i] == extra;
  }

  /** One more extra parameter adds at most its own pair at the end. */
  lemma ExtraParamsStep(extra: seq<(string, JsVal)>, i: nat)
    requires i < |extra|
    ensures ExtraParams(extra[..i + 1]) == ExtraParams(extra[..i]) + (if Sendable(extra[i].1) then [(extra[i].0, ToJsString(extra[i].1))] else [])
  {
    ExtraParamsAppend(extra[..i], extra[i]);
    assert extra[..i + 1] == extra[..i] + [extra[i]];
    assert extra[i .. i + 1][1..] == [];
  }

  lemma {:induction false} ExtraParamsAppend(extra: seq<(string, JsVal)>, e: (string, JsVal))
    ensures ExtraParams(extra + [e]) == ExtraParams(extra) + ExtraParams([e])
    decreases |extra|
  {
    if |extra| == 0 {
      assert extra + [e] == [e];
    } else {
      assert (extra + [e])[1..] == extra[1..] + [e];
      ExtraParamsAppend(extra[1..], e);
    }
  }

  /** The three places the total may come from, `??`-chained, then checked: a non-negative number, else 0. */
  function TotalCount(metaTotal: JsVal, total: JsVal, paginationTotal: JsVal): (n: nat)
    ensures var v := Coalesce(Coalesce(Coalesce(metaTotal, total), paginationTotal), Num(0));
      (v.Num? && v.n >= 0 ==> n == v.n) && (!(v.Num? && v.n >= 0) ==> n == 0)
  {
    var v := Coalesce(Coalesce(Coalesce(metaTotal, total), paginationTotal), Num(0));
    if v.Num? && v.n >= 0 then v.n else 0
  }

  /** The page after a fetch: back to 0 when a later page starts past the total, so a kept later page always starts inside it. */
  function PageAfterFetch(page: int, rowsPerPage: int, total: nat): (p: int)
    ensures page > 0 && page * rowsPerPage >= total ==> p == 0
    ensures !(page > 0 && page * rowsPerPage >= total) ==> p == page
    ensures p > 0 ==> p * rowsPerPage < total
  {
    if page > 0 && page * rowsPerPage >= total then 0 else page
  }

  // ---------------------------------------------------------------------
  // The saved configuration

  datatype SortConfig = SortConfig(field: string, direction: string)

  /** What `localStorage` holds: nothing, something that does not parse (or parses to null), or the parsed fields. */
  datatype SavedConfig =
    | NoConfig
    | Unreadable
    | Parsed(sortConfig: Option<SortConfig>, rowsPerPage: JsVal, groupingField: JsVal, viewMode: JsVal, visibleColumnIds: Option<seq<string>>)

  datatype GridConfig = GridConfig(sort: SortConfig, rowsPerPage: JsVal, groupingField: JsVal, viewMode: JsVal, visibleColumnIds: seq<string>)

  /** The configuration before anything is read. */
  function DefaultConfig(columnIds: seq<string>, defaultSort: SortConfig, initialRowsPerPage: JsVal): GridConfig
  {
    GridConfig(defaultSort, initialRowsPerPage, Str(""), Str("grid"), columnIds)
  }

  /** The saved ids that name a known column, in order. */
  function KnownIds(saved: seq<string>, columnIds: seq<string>): (r: seq<string>)
    ensures forall id :: id in r <==> id in saved && id in columnIds
    ensures |r| <= |saved|
    decreases |saved|
  {
    if |saved| == 0 then []
    else if saved[0] in columnIds then [saved[0]] + KnownIds(saved[1..], columnIds)
    else KnownIds(saved[1..], columnIds)
  }

  /** The known ids are `saved.filter(id => columnIds.includes(id))`: order and repeats kept. */
  lemma {:induction false} KnownIdsIsFilter(saved: seq<string>, columnIds: seq<string>)
    ensures KnownIds(saved, columnIds) == Filter(saved, (id: string) => id in columnIds)
    decreases |saved|
  {
    if |saved| > 0 {
      KnownIdsIsFilter(saved[1..], columnIds);
    }
  }

  /** The configuration the load effect settles on. */
  function LoadConfig(saved: SavedConfig, columnIds: seq<string>, defaultSort: SortConfig, initialRowsPerPage: JsVal): (c: GridConfig)
    ensures !saved.Parsed? ==> c == DefaultConfig(columnIds, defaultSort, initialRowsPerPage)
    ensures forall id :: id in c.visibleColumnIds ==> id in columnIds
    ensures saved.Parsed? ==>
      c.sort == (if saved.sortConfig.Some? then saved.sortConfig.value else defaultSort)
      && c.rowsPerPage == Or(saved.rowsPerPage, initialRowsPerPage)
      && c.groupingField == Or(saved.groupingField, Str(""))
      && c.viewMode == Or(saved.viewMode, Str("grid"))
      && var known := KnownIds(if saved.visibleColumnIds.Some? then saved.visibleColumnIds.value else [], columnIds);
        c.visibleColumnIds == if |known| > 0 then known else columnIds
  {
    match saved
    case NoConfig => DefaultConfig(columnIds, defaultSort, initialRowsPerPage)
    case Unreadable => DefaultConfig(columnIds, defaultSort, initialRowsPerPage)
    case Parsed(sort, rows, group, mode, ids) =>
      var known := KnownIds(if ids.Some? then ids.value else [], columnIds);
      GridConfig(if sort.Some? then sort.value else defaultSort, Or(rows, initialRowsPerPage), Or(group, Str("")),
                 Or(mode, Str("grid")), if |known| > 0 then known else columnIds)
  }

  // ---------------------------------------------------------------------
  // formatValueInternal

  datatype ColumnType = TelephoneColumn | BooleanColumn | DateColumn | DateTimeColumn | CurrencyColumn | OtherColumn

  /**
   * `formatValueInternal` outside the date and currency branches. `formatted`
   * is what a custom formatter or the column's own formatter returns, when
   * the column has one; None is a column type this model leaves out.
   */
  function FormatValue(value: JsVal, column: Option<ColumnType>, formatted: Option<string>): (r: Option<string>)
    ensures value == Null || value == Undefined || value == Str("") ==> r == Some("-")
    ensures !(value == Null || value == Undefined || value == Str("")) ==>
      (column.None? ==> r == Some(ToJsString(value)))
      && (column.Some? && formatted.Some? ==> r == formatted)
      && (column == Some(BooleanColumn) && formatted.None? ==> r == Some(if Truthy(value) then "Sim" else "Não"))
      && (column == Some(TelephoneColumn) && formatted.None? ==> r == Some(GridTelephoneMask(Str(ToJsString(value)))))
      && (column == Some(OtherColumn) && formatted.None? ==> r == Some(ToJsString(value)))
      && (column.Some? && column.value in {DateColumn, DateTimeColumn, CurrencyColumn} && formatted.None? ==> r.None?)
  {
    if value == Null || value == Undefined || value == Str("") then Some("-")
    else if column.None? then Some(ToJsString(value))
    else if formatted.Some? then formatted
    else match column.value
      case TelephoneColumn => Some(GridTelephoneMask(Str(ToJsString(value))))
      case BooleanColumn => Some(if Truthy(value) then "Sim" else "Não")
      case OtherColumn => Some(ToJsString(value))
      case _ => None
  }

  // ---------------------------------------------------------------------
  // The handlers

  class GridState {
    var sort: SortConfig
    var page: int
    var visibleColumnIds: seq<string>
    var groupingField: string
    var viewMode: string

    constructor(c: GridConfig, groupingField0: string, viewMode0: string)
      ensures sort == c.sort && page == 0 && visibleColumnIds == c.visibleColumnIds
      ensures groupingField == groupingField0 && viewMode == viewMode0
    {
      sort, page, visibleColumnIds := c.sort, 0, c.visibleColumnIds;
      groupingField, viewMode := groupingField0, viewMode0;
    }

    /** `handleSortRequest`: ignored while grouping in grid view; asc on the same field becomes desc, all else asc. */
    method HandleSortRequest(fieldId: string)
      modifies this
      ensures groupingField != "" && viewMode == "grid" ==> sort == old(sort) && page == old(page)
      ensures !(groupingField != "" && viewMode == "grid") ==>
        page == 0 && sort.field == fieldId
        && (sort.direction == "desc" <==> old(sort) == SortConfig(fieldId, "asc"))
        && (sort.direction != "desc" ==> sort.direction == "asc")
      ensures visibleColumnIds == old(visibleColumnIds) && groupingField == old(groupingField) && viewMode == old(viewMode)
    {
      if groupingField != "" && viewMode == "grid" {
        return;
      }
      sort := SortConfig(fieldId, if sort.field == fieldId && sort.direction == "asc" then "desc" else "asc");
      page := 0;
    }

    /** `handleToggleColumnVisibility`: fixed columns never change; others toggle, appended at the end. */
    method HandleToggleColumnVisibility(fixedColumns: seq<string>, columnId: string)
      modifies this
      ensures columnId in fixedColumns ==> visibleColumnIds == old(visibleColumnIds)
      ensures columnId !in fixedColumns ==> visibleColumnIds == ToggleMember(old(visibleColumnIds), columnId)
      ensures sort == old(sort) && page == old(page) && groupingField == old(groupingField) && viewMode == old(viewMode)
    {
      if columnId in fixedColumns {
        return;
      }
      visibleColumnIds := ToggleMember(visibleColumnIds, columnId);
    }
  }

  /** Fixed columns stay visible (or hidden) through any sequence of toggles. */
  function ToggleAll(visible: seq<string>, fixedColumns: seq<string>, ids: seq<string>): seq<string>
    decreases |ids|
  {
    if |ids| == 0 then visible
    else ToggleAll(if ids[0] in fixedColumns then visible else ToggleMember(visible, ids[0]), fixedColumns, ids[1..])
  }

  lemma {:induction false} FixedColumnsUntouched(visible: seq<string>, fixedColumns: seq<string>, ids: seq<string>, c: string)
    requires c in fixedColumns
    ensures c in ToggleAll(visible, fixedColumns, ids) <==> c in visible
    decreases |ids|
  {
    if |ids| > 0 {
      FixedColumnsUntouched(if ids[0] in fixedColumns then visible else ToggleMember(visible, ids[0]), fixedColumns, ids[1..], c);
    }
  }
}
