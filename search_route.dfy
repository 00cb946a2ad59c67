// The user search endpoint (src/app/api/user/search/route.js): it checks
// the query parameters, builds the options for the user service and wraps
// the service's answer. The service is a parameter.

module SearchRoute {
  import opened Js

  /** The query string: a parameter that is absent reads as null. */
  type QueryParams = map<string, string>

  function Param(params: QueryParams, name: string): JsVal
  {
    if name in params then Str(params[name]) else Null
  }

  /** The fields the listing may be sorted by. */
  const AllowedSortFields: seq<string> := ["id", "name", "nickname", "cpf", "birth_date", "updated_at", "mainEmail", "mainTelephone"]

  const NotNumbers := "Índice inicial ou final inválido: devem ser números."
  const Negative := "Índice inicial ou final inválido: não podem ser negativos."
  const EmptyRange := "Intervalo inválido: O índice final deve ser maior que o índice inicial."

  function InvalidSort(field: string): string
  {
    "Campo de ordenação inválido: " + field
  }

  function InvalidSecondarySort(field: string): string
  {
    "Campo de ordenação secundário inválido: " + field
  }

  datatype SearchOptions = SearchOptions(
    skip: nat, take: nat, sortField: string, sortOrder: string, searchTerm: string,
    includeMainEmail: bool, includeMainTelephone: bool, includeMainAddress: bool,
    secondary: Option<(string, string)>)

  /** `params.get(name)?.toLowerCase() === "desc" ? "desc" : "asc"` */
  function OrderOf(params: QueryParams, name: string): (o: string)
    ensures o == "desc" <==> name in params && ToLowerAscii(params[name]) == "desc"
    ensures o != "desc" ==> o == "asc"
  {
    if name in params && ToLowerAscii(params[name]) == "desc" then "desc" else "asc"
  }

  /** `parseInt(params.get("startIndex"), 10)` */
  function StartOf(params: QueryParams): (s: JsVal)
    ensures s.Num? || s.NaN?
  {
    ParseIntDecimal(ToJsString(Param(params, "startIndex")))
  }

  /** `parseInt(params.get("endIndex"), 10)` */
  function EndOf(params: QueryParams): (e: JsVal)
    ensures e.Num? || e.NaN?
  {
    ParseIntDecimal(ToJsString(Param(params, "endIndex")))
  }

  /** The pagination checks: the parsed start and end, or the 400 message. */
  function CheckRange(params: QueryParams): (r: Result<(nat, nat)>)
    ensures var s := StartOf(params);
      var e := EndOf(params);
      (s.NaN? || e.NaN? ==> r == Err(NotNumbers))
      && (s.Num? && e.Num? && (s.n < 0 || e.n < 0) ==> r == Err(Negative))
      && (s.Num? && e.Num? && 0 <= s.n && 0 <= e.n && e.n <= s.n ==> r == Err(EmptyRange))
      && (r.Ok? <==> s.Num? && e.Num? && 0 <= s.n < e.n)
      && (r.Ok? ==> r.value == (s.n, e.n))
  {
    var s := StartOf(params);
    var e := EndOf(params);
    if s.NaN? || e.NaN? then Err(NotNumbers)
    else if s.n < 0 || e.n < 0 then Err(Negative)
    else if e.n <= s.n then Err(EmptyRange)
    else Ok((s.n, e.n))
  }

  /** `params.get("sort") || "id"` */
  function SortFieldOf(params: QueryParams): string
  {
    if "sort" in params && params["sort"] != "" then params["sort"] else "id"
  }

  /** A truthy `secondary_sort`. */
  predicate HasSecondary(params: QueryParams)
  {
    "secondary_sort" in params && params["secondary_sort"] != ""
  }

  /** The sort-field checks: the secondary one only when given. */
  function CheckSort(params: QueryParams): (r: Result<(string, Option<string>)>)
    ensures SortFieldOf(params) !in AllowedSortFields ==> r == Err(InvalidSort(SortFieldOf(params)))
    ensures SortFieldOf(params) in AllowedSortFields && HasSecondary(params) && params["secondary_sort"] !in AllowedSortFields
      ==> r == Err(InvalidSecondarySort(params["secondary_sort"]))
    ensures r.Ok? <==> SortFieldOf(params) in AllowedSortFields && (HasSecondary(params) ==> params["secondary_sort"] in AllowedSortFields)
    ensures r.Ok? ==> r.value.0 == SortFieldOf(params) && r.value.0 in AllowedSortFields
    ensures r.Ok? ==> (r.value.1.Some? <==> HasSecondary(params))
    ensures r.Ok? && r.value.1.Some? ==> r.value.1.value == params["secondary_sort"] && r.value.1.value in AllowedSortFields
  {
    var sortField := Or(Param(params, "sort"), Str("id")).s;
    var secondary := Param(params, "secondary_sort");
    if sortField !in AllowedSortFields then Err(InvalidSort(sortField))
    else if Truthy(secondary) && secondary.s !in AllowedSortFields then Err(InvalidSecondarySort(secondary.s))
    else Ok((sortField, if Truthy(secondary) then Some(secondary.s) else None))
  }

  /** `params.get("search")?.trim() || ""` */
  function SearchTermOf(params: QueryParams): (t: string)
    ensures "search" in params ==> t == Trim(params["search"])
    ensures "search" !in params ==> t == ""
  {
    if "search" in params then Or(Str(Trim(params["search"])), Str("")).s else ""
  }

  /** The validation and option building of `handler`; `Err` is a 400 answer with its message. */
  function BuildOptions(params: QueryParams): (r: Result<SearchOptions>)
    ensures CheckRange(params).Err? ==> r == Err(CheckRange(params).message)
    ensures CheckRange(params).Ok? && CheckSort(params).Err? ==> r == Err(CheckSort(params).message)
    ensures r.Ok? <==> CheckRange(params).Ok? && CheckSort(params).Ok?
    ensures r.Ok? ==>
      var (start, end) := CheckRange(params).value;
      r.value.skip == start && r.value.take == end - start && r.value.take > 0
      && r.value.sortField == SortFieldOf(params) && r.value.sortField in AllowedSortFields
      && r.value.sortOrder == OrderOf(params, "order")
      && r.value.searchTerm == SearchTermOf(params)
      && (r.value.includeMainEmail <==> Param(params, "main_email") == Str("true"))
      && (r.value.includeMainTelephone <==> Param(params, "main_telephone") == Str("true"))
      && (r.value.includeMainAddress <==> Param(params, "main_address") == Str("true"))
      && (r.value.secondary.Some? <==> HasSecondary(params))
      && (r.value.secondary.Some? ==> r.value.secondary.value == (params["secondary_sort"], OrderOf(params, "secondary_order")))
  {
    match CheckRange(params)
    case Err(m) => Err(m)
    case Ok((start, end)) =>
      match CheckSort(params)
      case Err(m) => Err(m)
      case Ok((sortField, secondary)) =>
        Ok(SearchOptions(start, end - start, sortField, OrderOf(params, "order"), SearchTermOf(params),
                         Param(params, "main_email") == Str("true"),
                         Param(params, "main_telephone") == Str("true"),
                         Param(params, "main_address") == Str("true"),
                         if secondary.Some? then Some((secondary.value, OrderOf(params, "secondary_order"))) else None))
  }

  /** An absent index is `parseInt("null", 10)`, which is NaN: such a request is always refused. */
  lemma MissingIndexRefused(params: QueryParams)
    requires "startIndex" !in params || "endIndex" !in params
    ensures BuildOptions(params) == Err(NotNumbers)
  {
    var n := "null";
    assert n[0] == 'n' && !IsJsSpace(n[0]);
    assert TrimStart(n) == n;
    assert SplitSign(n) == (false, n);
    assert DigitPrefix(n) == "";
    assert ParseIntDecimal(n).NaN?;
    assert ToJsString(Null) == n;
  }

  // ---------------------------------------------------------------------
  // The answer

  /** What `backendUserService.getUsers` resolves to. */
  datatype ServiceResult = ServiceOk(data: JsVal, totalCount: JsVal) | ServiceFailed(error: JsVal)

  datatype Response = Response(status: int, ok: bool, message: string, data: JsVal, totalCount: JsVal)

  /** `handler`: 400 for bad parameters (the service is not called), 500 for a failed service, 200 otherwise. */
  function Handler(params: QueryParams, service: SearchOptions -> ServiceResult): (resp: Response)
    ensures BuildOptions(params).Err? ==> resp.status == 400 && !resp.ok && resp.message == BuildOptions(params).message
    ensures BuildOptions(params).Ok? ==>
      match service(BuildOptions(params).value)
      case ServiceOk(data, total) =>
        resp == Response(200, true, "Busca efetuada com sucesso!", data, total)
      case ServiceFailed(error) =>
        resp.status == 500 && !resp.ok
        && resp.message == ToJsString(Or(error, Str("Erro interno no servidor ao buscar usuários.")))
  {
    match BuildOptions(params)
    case Err(m) => Response(400, false, m, Undefined, Undefined)
    case Ok(options) =>
      match service(options)
      case ServiceOk(data, total) => Response(200, true, "Busca efetuada com sucesso!", data, total)
      case ServiceFailed(error) =>
        Response(500, false, ToJsString(Or(error, Str("Erro interno no servidor ao buscar usuários."))), Undefined, Undefined)
  }
}
