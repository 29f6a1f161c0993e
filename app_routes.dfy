// The older single-file application (app.py): the dashboard's month
// fallback, the paginated report page, and its state-map endpoint.
module AppRoutes {
  import opened Common
  import opened SqlText
  import ApiRoutes

  // ------------------------------------------------------------ dashboard month

  /** The month the dashboard page shows: the `month` parameter when it
      passes the same check as the JSON endpoints, otherwise the current
      month, which is a parameter here (`datetime.now().strftime('%Y-%m')`). */
  function DashboardMonth(param: Option<string>, currentMonth: string): (m: string)
    ensures ApiRoutes.MonthAccepted(param) ==> m == param.value
    ensures !ApiRoutes.MonthAccepted(param) ==> m == currentMonth
    ensures ApiRoutes.MonthAccepted(Some(currentMonth)) ==> ApiRoutes.MonthAccepted(Some(m))
  {
    if ApiRoutes.MonthAccepted(param) then param.value else currentMonth
  }

  /** The dashboard's three headline numbers (kWh, active clients,
      registered clients), read one after another inside one `try`: when
      any of the three reads raises, all three are reset to zero and the
      warning is set, so a partial set of numbers is never shown. */
  function DashboardKpis(kwh: Outcome<Value>, active: Outcome<Value>, registered: Outcome<Value>)
    : (r: (Value, Value, Value, Option<string>))
    ensures r.3.None? <==> kwh.Done? && active.Done? && registered.Done?
    ensures r.3.None? ==> r.0 == kwh.value && r.1 == active.value && r.2 == registered.value
    ensures r.3.Some? ==> r.0 == Int(0) && r.1 == Int(0) && r.2 == Int(0)
  {
    if kwh.Done? && active.Done? && registered.Done? then (kwh.value, active.value, registered.value, None)
    else (Int(0), Int(0), Int(0), Some(KpiWarning))
  }

  /** The warning flashed when the dashboard's numbers cannot be read. */
  const KpiWarning: string := "Erro ao carregar KPIs iniciais do dashboard."

  // ------------------------------------------------------------ report page

  /** The report types the page knows. */
  predicate KnownReportType(t: string)
  {
    t == "base_clientes" || t == "rateio" || t == "rateio_rzk" || t == "clientes_por_licenciado" || t == "boletos_por_cliente"
  }

  /** `request.args.get('page', 1, type=int)`: the parsed number, or 1 when
      the parameter is missing or does not parse. */
  function RequestedPage(param: Option<string>): (p: int)
    ensures param.Some? && ApiRoutes.PyInt(param.value).Some? ==> p == ApiRoutes.PyInt(param.value).value
    ensures param.None? || ApiRoutes.PyInt(param.value).None? ==> p == 1
  {
    if param.None? then 1
    else match ApiRoutes.PyInt(param.value)
      case Some(n) => n
      case None => 1
  }

  /** `math.ceil(a / b)` for positive `a` and `b`. */
  function CeilDiv(a: int, b: int): (q: int)
    requires a > 0 && b > 0
    ensures q >= 1 && (q - 1) * b < a <= q * b
  {
    var q := (a + b - 1) / b;
    assert q * b <= a + b - 1 < (q + 1) * b;
    q
  }

  /** What the page's database calls answer for one report type, given the
      offset and the page size: the rows of that page, the total count and
      the headers. */
  datatype PageData = PageData(rows: seq<Row>, totalItems: int, headers: seq<string>)

  /** What the page is rendered with. */
  datatype PageView = PageView(suppliers: seq<string>, supplier: string, headers: seq<string>, rows: seq<Row>,
                               page: int, totalPages: int, totalItems: int, error: Option<string>)

  /** The number of pages: the ceiling of items over page size when both
      are positive, otherwise 0. */
  function TotalPages(totalItems: int, itemsPerPage: int): (n: int)
    ensures n >= 0
    ensures n > 0 <==> totalItems > 0 && itemsPerPage > 0
    ensures n > 0 ==> (n - 1) * itemsPerPage < totalItems <= n * itemsPerPage
  {
    if totalItems > 0 && itemsPerPage > 0 then CeilDiv(totalItems, itemsPerPage) else 0
  }

  /** The page shown: clamped below at 1 first and, when there are pages,
      above at the last one. */
  function ShownPage(requested: int, totalPages: int): (p: int)
    ensures p >= 1
    ensures totalPages > 0 ==> p <= totalPages
    ensures 1 <= requested && (totalPages == 0 || requested <= totalPages) ==> p == requested
  {
    var low := if requested < 1 then 1 else requested;
    if totalPages > 0 && low > totalPages then totalPages else low
  }

  /** The page rendered when the route's outer `except` catches an error:
      status 500, only "Consolidado" listed, no rows. */
  const CrashView: PageView := PageView(["Consolidado"], "Consolidado", [], [], 1, 0, 0, Some("Erro interno grave."))

  /** `relatorios`: the page number, the offset and the page count are
      reassigned in the source's order. The offset comes from the page
      clamped below only; the upper clamp happens after the data was
      fetched. An unknown type renders with an error message, no headers
      and no rows; a database call that raises renders the crash page with
      status 500. `fetch` stands for the database calls of one report
      type, given the supplier, the offset and the page size. */
  method Relatorios(reportType: string, supplierArg: string, pageArg: Option<string>, itemsPerPage: int,
                    suppliersDb: seq<string>, fetch: (string, string, int, int) -> Outcome<PageData>)
    returns (view: PageView, status: int, offset: int)
    ensures offset == (ShownPage(RequestedPage(pageArg), 0) - 1) * itemsPerPage
    ensures status == 500 <==> KnownReportType(reportType) && fetch(reportType, supplierArg, offset, itemsPerPage).Raised?
    ensures status == 500 ==> view == CrashView
    ensures status != 500 ==> status == 200
    ensures !KnownReportType(reportType) ==>
              view.error.Some? && view.headers == [] && view.rows == [] && view.totalItems == 0 && view.totalPages == 0
              && view.page == ShownPage(RequestedPage(pageArg), 0)
              && view.suppliers == ["Consolidado"] + suppliersDb && view.supplier == supplierArg
    ensures status == 200 && KnownReportType(reportType) ==>
              var d := fetch(reportType, supplierArg, offset, itemsPerPage).value;
              view.error.None? && view.rows == d.rows && view.headers == d.headers && view.totalItems == d.totalItems
              && view.totalPages == TotalPages(d.totalItems, itemsPerPage)
              && view.page == ShownPage(RequestedPage(pageArg), view.totalPages)
              && view.suppliers == ["Consolidado"] + suppliersDb
              && view.supplier == if reportType == "rateio_rzk" then "RZK" else supplierArg
  {
    var page := RequestedPage(pageArg);
    page := if page < 1 then 1 else page;
    var suppliers := ["Consolidado"] + suppliersDb;
    offset := (page - 1) * itemsPerPage;
    var supplier := supplierArg;
    var rows: seq<Row> := [];
    var headers: seq<string> := [];
    var totalItems := 0;
    var totalPages := 0;
    var error: Option<string> := None;
    if KnownReportType(reportType) {
      var answer := fetch(reportType, supplier, offset, itemsPerPage);
      if answer.Raised? {
        return CrashView, 500, offset;
      }
      rows := answer.value.rows;
      totalItems := answer.value.totalItems;
      headers := answer.value.headers;
      if reportType == "rateio_rzk" {
        supplier := "RZK";
      }
    } else {
      error := Some("Tipo de relatório desconhecido: '" + reportType + "'.");
      headers := [];
    }
    if error.None? && totalItems > 0 && itemsPerPage > 0 {
      totalPages := CeilDiv(totalItems, itemsPerPage);
      if page > totalPages {
        page := totalPages;
      }
    } else if error.None? {
      totalPages := 0;
    }
    view := PageView(suppliers, supplier, headers, rows, page, totalPages, totalItems, error);
    status := 200;
  }

  /** A page asked for past the last one is shown as the last page, but its
      rows were fetched from an offset at or beyond the total, so they are
      not the last page's rows. */
  lemma PastLastPageOffset(requested: int, itemsPerPage: int, totalItems: int)
    requires itemsPerPage > 0 && totalItems > 0
    requires requested > TotalPages(totalItems, itemsPerPage)
    ensures (requested - 1) * itemsPerPage >= totalItems
    ensures ShownPage(requested, TotalPages(totalItems, itemsPerPage)) == TotalPages(totalItems, itemsPerPage)
    ensures (ShownPage(requested, TotalPages(totalItems, itemsPerPage)) - 1) * itemsPerPage < totalItems
  {
    var n := TotalPages(totalItems, itemsPerPage);
    MulMonotone(n, requested - 1, itemsPerPage);
  }

  lemma MulMonotone(a: int, b: int, c: int)
    requires a <= b && c >= 0
    ensures a * c <= b * c
  {
    assert b * c - a * c == (b - a) * c;
  }

  // ------------------------------------------------------------ state map

  /** `/api/map-data/state-summary` in this copy: there is no None check, so
      a failing database call (raised here) and a row shorter than three
      columns both reach the `except` and answer 500; otherwise one
      `{'uf', 'count', 'sum_consumo'}` object per row, in order. */
  function MapEndpoint(fetched: Outcome<seq<Row>>): (r: ApiRoutes.Reply<seq<ApiRoutes.Object>>)
    ensures fetched.Raised? ==> r == ApiRoutes.Status(500)
    ensures fetched.Done? ==>
              (r == ApiRoutes.Status(500) <==> exists i :: 0 <= i < |fetched.value| && |fetched.value[i]| < 3)
              && (r.Ok? ==> |r.body| == |fetched.value|
                            && forall i :: 0 <= i < |r.body| ==>
                                 r.body[i] == [("uf", fetched.value[i][0]), ("count", fetched.value[i][1]),
                                               ("sum_consumo", fetched.value[i][2])])
  {
    match fetched
    case Raised(_) => ApiRoutes.Status(500)
    case Done(rows) =>
      var keys := ["uf", "count", "sum_consumo"];
      match ApiRoutes.RowsToObjects(keys, rows)
      case None => ApiRoutes.Status(500)
      case Some(objs) =>
        assert forall i :: 0 <= i < |rows| ==> objs[i] == [(keys[0], rows[i][0]), (keys[1], rows[i][1]), (keys[2], rows[i][2])];
        ApiRoutes.Ok(objs)
  }

  // ------------------------------------------------------------ summaries and chart

  /** The two summary endpoints of this copy: 400 unless the month check
      passes; 500 when the database call raises, answers None, or gives a
      row shorter than three columns; otherwise one object per row under
      the grouping's name key ("fornecedora" or "concessionaria"). */
  function SummaryEndpoint(nameKey: string, month: Option<string>, fetched: string -> Outcome<Option<seq<Row>>>)
    : (r: ApiRoutes.Reply<seq<ApiRoutes.Object>>)
    ensures !ApiRoutes.MonthAccepted(month) ==> r == ApiRoutes.Status(400)
    ensures ApiRoutes.MonthAccepted(month) && (fetched(month.value).Raised? || fetched(month.value).value.None?) ==>
              r == ApiRoutes.Status(500)
    ensures ApiRoutes.MonthAccepted(month) && fetched(month.value).Done? && fetched(month.value).value.Some? ==>
              var rows := fetched(month.value).value.value;
              (r == ApiRoutes.Status(500) <==> exists i :: 0 <= i < |rows| && |rows[i]| < 3)
              && (r.Ok? ==> |r.body| == |rows|
                            && forall i :: 0 <= i < |r.body| ==>
                                 r.body[i] == [(nameKey, rows[i][0]), ("qtd_clientes", rows[i][1]), ("soma_consumo", rows[i][2])])
  {
    if !ApiRoutes.MonthAccepted(month) then ApiRoutes.Status(400)
    else match fetched(month.value)
      case Raised(_) => ApiRoutes.Status(500)
      case Done(None) => ApiRoutes.Status(500)
      case Done(Some(rows)) =>
        var keys := [nameKey, "qtd_clientes", "soma_consumo"];
        match ApiRoutes.RowsToObjects(keys, rows)
        case None => ApiRoutes.Status(500)
        case Some(objs) =>
          assert forall i :: 0 <= i < |rows| ==> objs[i] == [(keys[0], rows[i][0]), (keys[1], rows[i][1]), (keys[2], rows[i][2])];
          ApiRoutes.Ok(objs)
  }

  /** `/api/chart/monthly-active-clients` in this copy: 400 unless the year
      check passes (the `ValueError` branch cannot be reached then, since an
      accepted year always parses); 500 when the database call raises;
      otherwise whatever the call answered, None included, under
      "monthly_counts". */
  function MonthlyEndpoint(year: Option<string>, monthly: int -> Outcome<Value>): (r: ApiRoutes.Reply<ApiRoutes.Object>)
    ensures !ApiRoutes.YearAccepted(year) ==> r == ApiRoutes.Status(400)
    ensures ApiRoutes.YearAccepted(year) ==>
              ApiRoutes.PyInt(year.value).Some?
              && (r == ApiRoutes.Status(500) <==> monthly(ApiRoutes.PyInt(year.value).value).Raised?)
              && (r.Ok? ==> r.body == [("monthly_counts", monthly(ApiRoutes.PyInt(year.value).value).value)])
  {
    if !ApiRoutes.YearAccepted(year) then ApiRoutes.Status(400)
    else
      ApiRoutes.AcceptedYearParses(year.value);
      match ApiRoutes.PyInt(year.value)
      case None => ApiRoutes.Status(400)
      case Some(y) =>
        match monthly(y)
        case Raised(_) => ApiRoutes.Status(500)
        case Done(v) => ApiRoutes.Ok([("monthly_counts", v)])
  }

  // ------------------------------------------------------------ KPI endpoints

  /** The three KPI endpoints of this copy: 400 unless the month check
      passes; 500 when the database call raises; otherwise its answer under
      the endpoint's key ("total_kwh", "clientes_ativos_count" or
      "clientes_registrados_count"). */
  function KpiEndpoint(key: string, month: Option<string>, fetched: string -> Outcome<Value>): (r: ApiRoutes.Reply<ApiRoutes.Object>)
    ensures !ApiRoutes.MonthAccepted(month) ==> r == ApiRoutes.Status(400)
    ensures ApiRoutes.MonthAccepted(month) ==>
              (r == ApiRoutes.Status(500) <==> fetched(month.value).Raised?)
              && (r.Ok? ==> r.body == [(key, fetched(month.value).value)])
  {
    if !ApiRoutes.MonthAccepted(month) then ApiRoutes.Status(400)
    else match fetched(month.value)
      case Raised(_) => ApiRoutes.Status(500)
      case Done(v) => ApiRoutes.Ok([(key, v)])
  }

  // ------------------------------------------------------------ the imported module

  /** The functions the root `database.py` defines; `import database`
      (app.py:14) reaches this module, not the application package. */
  const RootDatabaseNames: seq<string> :=
    ["init_pool", "get_db", "close_db", "execute_query", "get_base_nova_ids", "get_base_enviada_ids",
     "get_client_details_by_ids", "get_clientes_por_licenciado_data", "count_clientes_por_licenciado",
     "get_boletos_por_cliente_data", "count_boletos_por_cliente", "get_client_count_by_state",
     "get_rateio_rzk_base_nova_ids", "get_rateio_rzk_base_enviada_ids", "_get_rateio_rzk_fields",
     "get_rateio_rzk_client_details_by_ids", "get_rateio_rzk_data", "count_rateio_rzk", "_get_query_fields",
     "build_query", "count_query", "get_fornecedoras", "get_headers"]

  /** The dashboard functions this copy calls, as `backend/database.py`
      defines them: the three KPIs, the state map, the two summaries and
      the monthly chart. */
  const DashboardNames: seq<string> :=
    ["get_total_consumo_medio_by_month", "count_clientes_ativos_by_month", "count_clientes_registrados_by_month",
     "get_state_map_data", "get_fornecedora_summary", "get_concessionaria_summary",
     "get_monthly_active_clients_by_year"]

  /** `module.name(...)`: a module without that name raises AttributeError
      before anything is called; otherwise the call answers. */
  function ModuleCall<T>(defined: seq<string>, name: string, answer: Outcome<T>): (r: Outcome<T>)
    ensures name !in defined ==> r == Raised("AttributeError")
    ensures name in defined ==> r == answer
  {
    if name in defined then answer else Raised("AttributeError")
  }

  /** None of the dashboard functions is defined by the root module. */
  lemma DashboardNamesMissing(i: nat)
    requires i < |DashboardNames|
    ensures DashboardNames[i] !in RootDatabaseNames
  {
  }

  /** As written, the dashboard never shows a number: the three KPI reads
      raise AttributeError inside the `try`, so the page shows zeros and the
      warning; and every JSON route that reads the dashboard answers 500
      once its parameter check passes. */
  lemma RootImportFails(kwh: Outcome<Value>, active: Outcome<Value>, registered: Outcome<Value>,
                        month: Option<string>, year: Option<string>, rows: Outcome<seq<Row>>,
                        kpi: string -> Outcome<Value>, summary: string -> Outcome<Option<seq<Row>>>,
                        monthly: int -> Outcome<Value>)
    ensures DashboardKpis(ModuleCall(RootDatabaseNames, DashboardNames[0], kwh),
                          ModuleCall(RootDatabaseNames, DashboardNames[1], active),
                          ModuleCall(RootDatabaseNames, DashboardNames[2], registered))
            == (Int(0), Int(0), Int(0), Some(KpiWarning))
    ensures MapEndpoint(ModuleCall(RootDatabaseNames, DashboardNames[3], rows)) == ApiRoutes.Status(500)
    ensures ApiRoutes.MonthAccepted(month) ==>
              KpiEndpoint("total_kwh", month, m => ModuleCall(RootDatabaseNames, DashboardNames[0], kpi(m)))
              == ApiRoutes.Status(500)
    ensures ApiRoutes.MonthAccepted(month) ==>
              SummaryEndpoint("fornecedora", month, m => ModuleCall(RootDatabaseNames, DashboardNames[4], summary(m)))
              == ApiRoutes.Status(500)
    ensures ApiRoutes.YearAccepted(year) ==>
              MonthlyEndpoint(year, y => ModuleCall(RootDatabaseNames, DashboardNames[6], monthly(y)))
              == ApiRoutes.Status(500)
  {
    DashboardNamesMissing(0);
    DashboardNamesMissing(1);
    DashboardNamesMissing(2);
    DashboardNamesMissing(3);
    DashboardNamesMissing(4);
    DashboardNamesMissing(6);
  }

  /** The module the page evidently means: the root functions together with
      the dashboard functions. */
  const DashboardDatabaseNames: seq<string> := RootDatabaseNames + DashboardNames

  /** With the dashboard functions defined, every call reaches its
      function: the page shows the three numbers without a warning when the
      reads succeed, and each JSON route answers as its database call does. */
  lemma DashboardImportReaches(kwh: Value, active: Value, registered: Value,
                               month: Option<string>, year: Option<string>, rows: Outcome<seq<Row>>,
                               kpi: string -> Outcome<Value>, summary: string -> Outcome<Option<seq<Row>>>,
                               monthly: int -> Outcome<Value>)
    ensures DashboardKpis(ModuleCall(DashboardDatabaseNames, DashboardNames[0], Done(kwh)),
                          ModuleCall(DashboardDatabaseNames, DashboardNames[1], Done(active)),
                          ModuleCall(DashboardDatabaseNames, DashboardNames[2], Done(registered)))
            == (kwh, active, registered, None)
    ensures MapEndpoint(ModuleCall(DashboardDatabaseNames, DashboardNames[3], rows)) == MapEndpoint(rows)
    ensures KpiEndpoint("total_kwh", month, m => ModuleCall(DashboardDatabaseNames, DashboardNames[0], kpi(m)))
            == KpiEndpoint("total_kwh", month, kpi)
    ensures SummaryEndpoint("fornecedora", month, m => ModuleCall(DashboardDatabaseNames, DashboardNames[4], summary(m)))
            == SummaryEndpoint("fornecedora", month, summary)
    ensures MonthlyEndpoint(year, y => ModuleCall(DashboardDatabaseNames, DashboardNames[6], monthly(y)))
            == MonthlyEndpoint(year, monthly)
  {
    forall i | 0 <= i < |DashboardNames|
      ensures DashboardNames[i] in DashboardDatabaseNames
    {
      assert DashboardDatabaseNames[|RootDatabaseNames| + i] == DashboardNames[i];
    }
  }
}
