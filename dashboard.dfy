// The dashboard's KPI, summary, chart and map queries (backend/db/dashboard.py):
// the "YYYY-MM" month filter and its date window, the query each function
// sends, and how each turns the rows it gets back into its result.
module Dashboard {
  import opened Common
  import opened SqlText

  // ------------------------------------------------------------ month text

  /** What `%m` accepts: "10".."12", "01".."09", or one digit "1".."9". */
  predicate MonthToken(t: string)
  {
    (|t| == 1 && '1' <= t[0] <= '9')
    || (|t| == 2 && ((t[0] == '0' && '1' <= t[1] <= '9') || (t[0] == '1' && '0' <= t[1] <= '2')))
  }

  function TokenValue(t: string): (m: int)
    requires MonthToken(t)
    ensures 1 <= m <= 12
  {
    ShortDigits(t);
    DigitsValue(t)
  }

  /** `datetime.strptime(s + '-01', '%Y-%m-%d')`: four digits, a dash, then
      a month token and nothing else; year 0 is refused by `date` itself.
      The result is (year, month). */
  function ParseMonth(s: string): (r: Option<(int, int)>)
    ensures r.Some? ==> 1 <= r.value.0 <= 9999 && 1 <= r.value.1 <= 12
    ensures r.Some? ==> |s| == 6 || |s| == 7
  {
    if |s| >= 5 && AllDigits(s[..4]) && s[4] == '-' && MonthToken(s[5..]) && DigitsValue(s[..4]) >= 1
    then
      DigitsBound(s[..4]);
      assert Pow10(4) == 10000;
      Some((DigitsValue(s[..4]) as int, TokenValue(s[5..])))
    else None
  }

  /** The canonical "YYYY-MM" text of a month. */
  function MonthText(y: int, m: int): (s: string)
    requires 1 <= y <= 9999 && 1 <= m <= 12
    ensures |s| == 7 && s[4] == '-'
  {
    PadDigits(y, 4) + "-" + PadDigits(m, 2)
  }

  /** Every month's canonical text parses back to that month. */
  lemma ParseMonthText(y: int, m: int)
    requires 1 <= y <= 9999 && 1 <= m <= 12
    ensures ParseMonth(MonthText(y, m)) == Some((y, m))
  {
    var s := MonthText(y, m);
    assert s[..4] == PadDigits(y, 4) && s[5..] == PadDigits(m, 2);
    assert Pow10(4) == 10000 && Pow10(2) == 100;
    PadDigitsValue(y, 4);
    PadDigitsValue(m, 2);
    var t := s[5..];
    assert t == PadDigits(m / 10, 1) + [DigitChar(m % 10)];
    assert PadDigits(m / 10, 1) == [DigitChar(m / 10)];
    assert MonthToken(t);
  }

  /** Conversely, a seven-character text that parses is the canonical text
      of what it parses to (a one-digit month such as "2024-3" also parses,
      and is the only other accepted form). */
  lemma ParsedMonthIsCanonical(s: string)
    requires ParseMonth(s).Some?
    ensures |s| == 7 ==> s == MonthText(ParseMonth(s).value.0, ParseMonth(s).value.1)
    ensures |s| == 6 ==> 1 <= ParseMonth(s).value.1 <= 9
  {
    ShortDigits(s[5..]);
    if |s| == 7 {
      DigitsCanonical(s[..4]);
      DigitsCanonical(s[5..]);
      assert s == s[..4] + "-" + s[5..];
    }
  }

  // ------------------------------------------------------------ the window

  /** The dates a month filter binds: its first day and, exclusive, the
      first day of the month after. */
  datatype Window = Window(start: Date, end: Date)

  /** Months counted from year 0, so that consecutive months differ by 1. */
  function MonthNumber(d: Date): int
  {
    d.year * 12 + d.month - 1
  }

  /** The window a `month_str` selects, or None for the fallback filter: no
      month, an empty one, one `strptime` refuses, and December 9999, whose
      rollover to year 10000 raises the same ValueError inside the `try`. */
  function MonthWindow(month: Option<string>): (w: Option<Window>)
    ensures w.None? <==> (month.None? || ParseMonth(month.value).None? || ParseMonth(month.value) == Some((9999, 12)))
    ensures w.Some? ==> ParseMonth(month.value) == Some((w.value.start.year, w.value.start.month))
    ensures w.Some? ==> w.value.start.day == 1 && w.value.end.day == 1
    ensures w.Some? ==> 1 <= w.value.end.month <= 12 && MonthNumber(w.value.end) == MonthNumber(w.value.start) + 1
  {
    if month.None? || |month.value| == 0 then None
    else match ParseMonth(month.value)
      case None => None
      case Some((y, m)) =>
        if m == 12 then
          (if y == 9999 then None else Some(Window(Date(y, 12, 1), Date(y + 1, 1, 1))))
        else Some(Window(Date(y, m, 1), Date(y, m + 1, 1)))
  }

  /** December rolls over to January 1st of the next year; any other month
      ends on the first of the following month of the same year. */
  lemma WindowRollover(month: Option<string>)
    requires MonthWindow(month).Some?
    ensures var w := MonthWindow(month).value;
            if w.start.month == 12 then w.end == Date(w.start.year + 1, 1, 1)
            else w.end == Date(w.start.year, w.start.month + 1, 1)
  {
  }

  /** The window of a month written canonically. */
  lemma WindowOfMonthText(y: int, m: int)
    requires 1 <= y <= 9999 && 1 <= m <= 12
    ensures MonthWindow(Some(MonthText(y, m))).Some? <==> !(y == 9999 && m == 12)
    ensures MonthWindow(Some(MonthText(y, m))).Some? ==> MonthWindow(Some(MonthText(y, m))).value.start == Date(y, m, 1)
  {
    ParseMonthText(y, m);
  }

  // ------------------------------------------------------------ the queries

  /** The date filter on `col`: the half-open window, or "col IS NOT NULL". */
  function DateFilter(col: string, w: Option<Window>): (c: seq<Piece>)
    ensures Pct !in c
    ensures SlotRoles(c) == if w.Some? then [WindowStart, WindowEnd] else []
  {
    if w.None? then
      assert [Lit(col + " IS NOT NULL")][1..] == [];
      [Lit(col + " IS NOT NULL")]
    else
      var from := Cond("(" + col + " >= ", WindowStart);
      var until := Cond(" AND " + col + " < ", WindowEnd);
      SlotRolesAppend(from, until);
      SlotRolesAppend(from + until, [Lit(")")]);
      assert [Lit(")")][1..] == [];
      from + until + [Lit(")")]
  }

  /** `params.extend([start_date, end_date_exclusive])`, or nothing. */
  function WindowParams(w: Option<Window>): (r: seq<Param>)
    ensures Roles(r) == if w.Some? then [WindowStart, WindowEnd] else []
  {
    if w.None? then [] else [Param(WindowStart, Day(w.value.start)), Param(WindowEnd, Day(w.value.end))]
  }

  /** The origin whitelist, then the date filter. */
  function MonthConds(col: string, w: Option<Window>): (r: seq<seq<Piece>>)
  {
    Fixed([LiveOriginCond]) + [DateFilter(col, w)]
  }

  lemma MonthCondsFacts(col: string, w: Option<Window>)
    ensures CondsPctFree(MonthConds(col, w)) && CondRoles(MonthConds(col, w)) == Roles(WindowParams(w))
  {
    var pre := Fixed([LiveOriginCond]);
    var d := DateFilter(col, w);
    FixedRoles([LiveOriginCond]);
    CondRolesAppend(pre, [d]);
    assert CondRoles([d]) == SlotRoles(d) + CondRoles([]);
    assert MonthConds(col, w) == pre + [d];
  }

  lemma MonthParts(head: string, col: string, tail: string, w: Option<Window>)
    ensures BuilderParts([Lit(head)], MonthConds(col, w), WindowParams(w), SupplierCond(), [Lit(tail)])
  {
    MonthCondsFacts(col, w);
    assert [Lit(head)][1..] == [] && [Lit(tail)][1..] == [];
  }

  /** A month-filtered dashboard query: the parameters are exactly the
      window's two dates, or none under the fallback, and each lines up with
      its placeholder. */
  function MonthQuery(head: string, col: string, tail: string, month: Option<string>): (q: Query)
    ensures Binds(q)
    ensures q.params == WindowParams(MonthWindow(month))
    ensures |q.params| == 2 <==> MonthWindow(month).Some?
  {
    var w := MonthWindow(month);
    MonthParts(head, col, tail, w);
    assert WindowParams(w) + SupplierParams(None) + PagingParams(None, 0) == WindowParams(w);
    Filtered([Lit(head)], MonthConds(col, w), WindowParams(w), SupplierCond(), [Lit(tail)], None, None, 0)
  }

  const Clientes: string := " FROM public.\"CLIENTES\" c"
  const ActiveCol: string := "c.data_ativo"
  const RegisteredCol: string := "c.dtcad"
  const ConsumoHead: string := "SELECT SUM(COALESCE(c.consumomedio, 0))" + Clientes
  const CountHead: string := "SELECT COUNT(c.idcliente)" + Clientes
  const SupplierLabel: string := "COALESCE(NULLIF(TRIM(c.fornecedora), ''), 'NÃO ESPECIFICADA') AS fornecedora_tratada"
  const RegionLabel: string :=
    "CASE WHEN c.concessionaria IS NULL OR TRIM(c.concessionaria) = '' THEN COALESCE(UPPER(TRIM(c.ufconsumo)), 'NÃO ESPECIFICADA')"
    + " WHEN c.ufconsumo IS NULL OR TRIM(c.ufconsumo) = '' THEN UPPER(TRIM(c.concessionaria))"
    + " ELSE (UPPER(TRIM(c.ufconsumo)) || '-' || UPPER(TRIM(c.concessionaria))) END AS regiao_concessionaria"

  function ConsumoQuery(month: Option<string>): Query
  {
    MonthQuery(ConsumoHead, ActiveCol, "", month)
  }

  function ActiveQuery(month: Option<string>): Query
  {
    MonthQuery(CountHead, ActiveCol, "", month)
  }

  /** Registered clients are counted by registration date, `dtcad`. */
  function RegisteredQuery(month: Option<string>): Query
  {
    MonthQuery(CountHead, RegisteredCol, "", month)
  }

  /** A month query filters on its column in both branches: the window's
      bounds when a month is selected, "IS NOT NULL" under the fallback. */
  lemma MonthQueryFilters(head: string, col: string, tail: string, month: Option<string>)
    ensures MonthWindow(month).None? ==> Lit(col + " IS NOT NULL") in MonthQuery(head, col, tail, month).pieces
    ensures MonthWindow(month).Some? ==>
              Lit("(" + col + " >= ") in MonthQuery(head, col, tail, month).pieces
              && Lit(" AND " + col + " < ") in MonthQuery(head, col, tail, month).pieces
  {
    var w := MonthWindow(month);
    var conds := MonthConds(col, w);
    MonthParts(head, col, tail, w);
    assert conds + SupplierConds(None, SupplierCond()) == conds;
    assert conds[1] == DateFilter(col, w);
    if w.None? {
      CondInStmt([Lit(head)], conds, [Lit(tail)], false, false, 1, Lit(col + " IS NOT NULL"));
    } else {
      CondInStmt([Lit(head)], conds, [Lit(tail)], false, false, 1, Lit("(" + col + " >= "));
      CondInStmt([Lit(head)], conds, [Lit(tail)], false, false, 1, Lit(" AND " + col + " < "));
    }
  }

  /** The registered count filters on `dtcad` in both branches. */
  lemma RegisteredFiltersOnDtcad(month: Option<string>)
    ensures MonthWindow(month).None? ==> Lit(RegisteredCol + " IS NOT NULL") in RegisteredQuery(month).pieces
    ensures MonthWindow(month).Some? ==>
              Lit("(" + RegisteredCol + " >= ") in RegisteredQuery(month).pieces
              && Lit(" AND " + RegisteredCol + " < ") in RegisteredQuery(month).pieces
  {
    MonthQueryFilters(CountHead, RegisteredCol, "", month);
  }

  const SupplierSummaryHead: string :=
    "SELECT " + SupplierLabel + ", COUNT(c.idcliente) AS qtd_clientes, SUM(COALESCE(c.consumomedio, 0)) AS soma_consumo_medio_por_fornecedora" + Clientes
  const SupplierSummaryTail: string := " GROUP BY fornecedora_tratada ORDER BY fornecedora_tratada"
  const RegionSummaryHead: string :=
    "SELECT " + RegionLabel + ", COUNT(c.idcliente) AS qtd_clientes, SUM(COALESCE(c.consumomedio, 0)) AS soma_consumo_medio" + Clientes
  const RegionSummaryTail: string := " GROUP BY regiao_concessionaria ORDER BY regiao_concessionaria"
  const RegionPieHead: string := "SELECT " + RegionLabel + ", COUNT(c.idcliente) AS qtd_clientes" + Clientes
  const RegionPieTail: string := " GROUP BY regiao_concessionaria ORDER BY qtd_clientes DESC"
  const StateMapHead: string :=
    "SELECT UPPER(c.ufconsumo) as estado_uf, COUNT(c.idcliente) as total_clientes, SUM(COALESCE(c.consumomedio, 0)) as total_consumo_medio" + Clientes
  const StateMapConds: seq<string> := ["c.data_ativo IS NOT NULL", "c.ufconsumo IS NOT NULL AND c.ufconsumo <> ''", LiveOriginCond]
  const StateMapTail: string := " GROUP BY UPPER(c.ufconsumo) ORDER BY estado_uf"

  function SupplierSummaryQuery(month: Option<string>): Query
  {
    MonthQuery(SupplierSummaryHead, ActiveCol, SupplierSummaryTail, month)
  }

  function RegionSummaryQuery(month: Option<string>): Query
  {
    MonthQuery(RegionSummaryHead, ActiveCol, RegionSummaryTail, month)
  }

  const SupplierPieHead: string := "SELECT " + SupplierLabel + ", COUNT(c.idcliente) AS qtd_clientes" + Clientes
  const SupplierPieTail: string :=
    " GROUP BY fornecedora_tratada HAVING COUNT(c.idcliente) > 0 ORDER BY qtd_clientes DESC, fornecedora_tratada"

  function SupplierPieQuery(month: Option<string>): Query
  {
    MonthQuery(SupplierPieHead, ActiveCol, SupplierPieTail, month)
  }

  function RegionPieQuery(month: Option<string>): Query
  {
    MonthQuery(RegionPieHead, ActiveCol, RegionPieTail, month)
  }

  /** The state map's query: no month filter and no parameters. */
  function StateMapQuery(): (q: Query)
    ensures Binds(q) && q.params == []
  {
    FixedQuery(StateMapHead, StateMapConds, SupplierCond(), StateMapTail, None, None, 0)
  }

  // ------------------------------------------------------------ scalar KPIs

  /** `float(result[0])` / `int(result[0])` if the row and its column are
      there, else 0; a value that is not a number raises and the `except`
      answers 0 as well. */
  function KpiValue(result: Option<Row>): (n: int)
    ensures (result.None? || |result.value| == 0 || result.value[0] == Null) ==> n == 0
    ensures result.Some? && |result.value| > 0 && result.value[0].Int? ==> n == result.value[0].n
  {
    match CountOf(result)
    case Int(k) => k
    case _ => 0
  }

  function TotalConsumo(db: Query -> seq<Row>, month: Option<string>): (total: int)
    ensures |ExecuteQuery(db, ConsumoQuery(month))| == 0 ==> total == 0
  {
    KpiValue(FetchOne(db, ConsumoQuery(month)))
  }

  function ActiveCount(db: Query -> seq<Row>, month: Option<string>): (n: int)
    ensures |ExecuteQuery(db, ActiveQuery(month))| == 0 ==> n == 0
  {
    KpiValue(FetchOne(db, ActiveQuery(month)))
  }

  function RegisteredCount(db: Query -> seq<Row>, month: Option<string>): (n: int)
    ensures |ExecuteQuery(db, RegisteredQuery(month))| == 0 ==> n == 0
  {
    KpiValue(FetchOne(db, RegisteredQuery(month)))
  }

  // ------------------------------------------------------------ row lists

  /** A list comprehension inside `try`: every row converts, or the first
      failure raises and the `except` answers None. */
  function ConvertAll<T>(rows: seq<Row>, convert: Row -> Option<T>): (r: Option<seq<T>>)
    ensures r.None? <==> exists i :: 0 <= i < |rows| && convert(rows[i]).None?
    ensures r.Some? ==> |r.value| == |rows| && forall i :: 0 <= i < |rows| ==> convert(rows[i]) == Some(r.value[i])
  {
    if forall i :: 0 <= i < |rows| ==> convert(rows[i]).Some?
    then Some(seq(|rows|, i requires 0 <= i < |rows| => convert(rows[i]).value))
    else None
  }

  /** `int(v)`: defined on numbers only (a NULL raises). */
  function AsInt(v: Value): Option<int>
  {
    if v.Int? then Some(v.n) else None
  }

  /** `float(v) if v is not None else 0.0`. */
  function AsIntOrZero(v: Value): Option<int>
  {
    if v == Null then Some(0) else AsInt(v)
  }

  /** One summary line: label, number of clients, summed consumption. */
  datatype Summary = Summary(name: Value, clients: int, consumption: int)

  function SummaryOf(row: Row): (r: Option<Summary>)
    ensures r.Some? <==> |row| >= 3 && row[1].Int? && (row[2].Int? || row[2] == Null)
    ensures r.Some? ==> r.value.name == row[0] && r.value.clients == row[1].n
    ensures r.Some? && row[2] == Null ==> r.value.consumption == 0
  {
    if |row| < 3 then None
    else match (AsInt(row[1]), AsIntOrZero(row[2]))
      case (Some(n), Some(c)) => Some(Summary(row[0], n, c))
      case _ => None
  }

  /** `[(...) for row in results] if results else []`, inside `try`. */
  function SummaryRows(rows: seq<Row>): (r: Option<seq<Summary>>)
    ensures r.Some? ==> |r.value| == |rows|
  {
    ConvertAll(rows, SummaryOf)
  }

  /** None means an error, [] means no data: an empty answer is the only
      way to get [], and a row that does not convert the only way to get
      None. */
  lemma SummaryErrorOrEmpty(rows: seq<Row>)
    ensures SummaryRows(rows) == Some([]) <==> |rows| == 0
    ensures SummaryRows(rows).None? <==> exists i :: 0 <= i < |rows| && SummaryOf(rows[i]).None?
  {
  }

  function SupplierSummary(db: Query -> seq<Row>, month: Option<string>): (r: Option<seq<Summary>>)
    ensures |ExecuteQuery(db, SupplierSummaryQuery(month))| == 0 ==> r == Some([])
  {
    SummaryRows(ExecuteQuery(db, SupplierSummaryQuery(month)))
  }

  function RegionSummary(db: Query -> seq<Row>, month: Option<string>): (r: Option<seq<Summary>>)
    ensures |ExecuteQuery(db, RegionSummaryQuery(month))| == 0 ==> r == Some([])
  {
    SummaryRows(ExecuteQuery(db, RegionSummaryQuery(month)))
  }

  /** One pie slice: label and number of clients. */
  datatype PieSlice = PieSlice(name: Value, clients: int)

  function PieSliceOf(row: Row): (r: Option<PieSlice>)
    ensures r.Some? <==> |row| >= 2 && row[1].Int?
    ensures r.Some? ==> r.value == PieSlice(row[0], row[1].n)
  {
    if |row| < 2 || !row[1].Int? then None else Some(PieSlice(row[0], row[1].n))
  }

  /** The slices of a pie query's answer: one per row, or None when a row
      does not convert. */
  function PieOf(rows: seq<Row>): (r: Option<seq<PieSlice>>)
    ensures |rows| == 0 ==> r == Some([])
    ensures r.Some? ==> |r.value| == |rows|
  {
    ConvertAll(rows, PieSliceOf)
  }

  function SupplierPie(db: Query -> seq<Row>, month: Option<string>): (r: Option<seq<PieSlice>>)
    ensures |ExecuteQuery(db, SupplierPieQuery(month))| == 0 ==> r == Some([])
    ensures r.Some? ==> |r.value| == |ExecuteQuery(db, SupplierPieQuery(month))|
  {
    PieOf(ExecuteQuery(db, SupplierPieQuery(month)))
  }

  function RegionPie(db: Query -> seq<Row>, month: Option<string>): (r: Option<seq<PieSlice>>)
    ensures |ExecuteQuery(db, RegionPieQuery(month))| == 0 ==> r == Some([])
    ensures r.Some? ==> |r.value| == |ExecuteQuery(db, RegionPieQuery(month))|
  {
    PieOf(ExecuteQuery(db, RegionPieQuery(month)))
  }

  // ------------------------------------------------------------ state map

  /** One state on the map: UF, number of clients, summed consumption. */
  datatype StateEntry = StateEntry(uf: Value, clients: int, consumption: int)

  /** A kept row's conversion: NULL count and NULL sum become 0. */
  function StateEntryOf(row: Row): (r: Option<StateEntry>)
    ensures r.Some? ==> |row| > 2 && r.value.uf == row[0]
    ensures r.Some? && row[1] == Null ==> r.value.clients == 0
    ensures r.Some? && row[2] == Null ==> r.value.consumption == 0
    ensures |row| > 2 && (row[1].Int? || row[1] == Null) && (row[2].Int? || row[2] == Null) ==> r.Some?
  {
    if |row| <= 2 then None
    else match (AsIntOrZero(row[1]), AsIntOrZero(row[2]))
      case (Some(n), Some(c)) => Some(StateEntry(row[0], n, c))
      case _ => None
  }

  /** `for row in results if row and len(row) > 2`: the rows kept, in order. */
  function LongRows(rows: seq<Row>): (kept: seq<Row>)
    ensures |kept| <= |rows|
    ensures forall i :: 0 <= i < |kept| ==> |kept[i]| > 2
    ensures forall i :: 0 <= i < |rows| && |rows[i]| > 2 ==> rows[i] in kept
    decreases |rows|
  {
    if |rows| == 0 then []
    else if |rows[0]| > 2 then [rows[0]] + LongRows(rows[1..])
    else LongRows(rows[1..])
  }

  /** The map data: the kept rows converted, or [] when a conversion raises. */
  function StateMap(rows: seq<Row>): (entries: seq<StateEntry>)
  {
    match ConvertAll(LongRows(rows), StateEntryOf)
    case None => []
    case Some(e) => e
  }

  /** Rows with fewer than three columns are dropped, never converted; every
      other row gives one entry, in order, unless one of them fails to
      convert, in which case the map is empty. */
  lemma StateMapShape(rows: seq<Row>)
    ensures |StateMap(rows)| <= |rows|
    ensures (forall i :: 0 <= i < |rows| && |rows[i]| > 2 ==> StateEntryOf(rows[i]).Some?) ==>
              |StateMap(rows)| == |LongRows(rows)|
              && forall i :: 0 <= i < |LongRows(rows)| ==> StateEntryOf(LongRows(rows)[i]) == Some(StateMap(rows)[i])
  {
    var kept := LongRows(rows);
    if forall i :: 0 <= i < |rows| && |rows[i]| > 2 ==> StateEntryOf(rows[i]).Some? {
      forall i | 0 <= i < |kept|
        ensures StateEntryOf(kept[i]).Some?
      {
        KeptFromRows(rows, kept[i]);
      }
    }
  }

  lemma {:induction false} KeptFromRows(rows: seq<Row>, r: Row)
    requires r in LongRows(rows)
    ensures r in rows
    decreases |rows|
  {
    if |rows[0]| > 2 && r == rows[0] {
    } else {
      KeptFromRows(rows[1..], r);
    }
  }

  /** A row of two columns or fewer is skipped: the map is the same with
      or without it. */
  lemma StateMapDropsShortRows(rows: seq<Row>, short: Row)
    requires |short| <= 2
    ensures StateMap([short] + rows) == StateMap(rows)
  {
    assert ([short] + rows)[1..] == rows;
  }

  function StateMapData(db: Query -> seq<Row>): (entries: seq<StateEntry>)
    ensures |entries| <= |ExecuteQuery(db, StateMapQuery())|
  {
    StateMapShape(ExecuteQuery(db, StateMapQuery()));
    StateMap(ExecuteQuery(db, StateMapQuery()))
  }

  // ------------------------------------------------------------ monthly chart

  /** The year filter of the monthly chart, then the origin whitelist. */
  function MonthlyConds(): (r: seq<seq<Piece>>)
  {
    [Cond("EXTRACT(YEAR FROM c.data_ativo) = ", Year)] + Fixed([LiveOriginCond])
  }

  const MonthlyHead: string := "SELECT EXTRACT(MONTH FROM c.data_ativo)::INTEGER AS mes, COUNT(c.idcliente) AS contagem" + Clientes
  const MonthlyTail: string := " GROUP BY mes ORDER BY mes"

  /** The monthly chart's query: its one parameter is the year. */
  function MonthlyQuery(year: int): (q: Query)
    ensures Binds(q) && q.params == [Param(Year, Int(year))]
  {
    var pre := MonthlyConds();
    FixedRoles([LiveOriginCond]);
    CondRolesAppend([Cond("EXTRACT(YEAR FROM c.data_ativo) = ", Year)], Fixed([LiveOriginCond]));
    assert CondRoles([Cond("EXTRACT(YEAR FROM c.data_ativo) = ", Year)])
        == SlotRoles(Cond("EXTRACT(YEAR FROM c.data_ativo) = ", Year)) + CondRoles([]);
    assert Roles([Param(Year, Int(year))]) == [Year];
    var head := [Lit(MonthlyHead)];
    var tail := [Lit(MonthlyTail)];
    assert head[1..] == [] && tail[1..] == [];
    assert [Param(Year, Int(year))] + SupplierParams(None) + PagingParams(None, 0) == [Param(Year, Int(year))];
    Filtered(head, pre, [Param(Year, Int(year))], SupplierCond(), tail, None, None, 0)
  }

  const Months: nat := 12

  function Zeros(): (z: seq<int>)
    ensures |z| == Months && forall k :: 0 <= k < Months ==> z[k] == 0
  {
    seq(Months, k => 0)
  }

  /** A row the loop body gets through: `row[0] - 1` needs a number, and
      `int(row[1])` is evaluated only for a month in 1..12. */
  predicate FoldRowOk(row: Row)
  {
    |row| > 0 && row[0].Int? && (1 <= row[0].n <= Months ==> |row| > 1 && row[1].Int?)
  }

  predicate AllFoldRowsOk(rows: seq<Row>)
  {
    forall i :: 0 <= i < |rows| ==> FoldRowOk(rows[i])
  }

  /** The twelve slots after the loop has run over `rows`. */
  function Fold(rows: seq<Row>): (counts: seq<int>)
    requires AllFoldRowsOk(rows)
    ensures |counts| == Months
    decreases |rows|
  {
    if |rows| == 0 then Zeros()
    else
      var row := rows[|rows| - 1];
      var before := Fold(rows[..|rows| - 1]);
      if 1 <= row[0].n <= Months then before[row[0].n - 1 := row[1].n] else before
  }

  /** `get_monthly_active_clients_by_year`'s result for an answer: the fold,
      or twelve zeros when a row makes the loop raise (the partly filled list
      is discarded). */
  function MonthlyCounts(rows: seq<Row>): (counts: seq<int>)
    ensures |counts| == Months
  {
    if AllFoldRowsOk(rows) then Fold(rows) else Zeros()
  }

  /** Row j is the last row for `month`. */
  predicate LastFor(rows: seq<Row>, j: int, month: int)
    requires AllFoldRowsOk(rows)
  {
    0 <= j < |rows| && rows[j][0].n == month && forall l :: j < l < |rows| ==> rows[l][0].n != month
  }

  /** The slot of `month` holds the count of the LAST row for that month,
      or 0 when no row names it; rows for months outside 1..12 change nothing. */
  lemma {:induction false} FoldLastWins(rows: seq<Row>, month: int)
    requires AllFoldRowsOk(rows) && 1 <= month <= Months
    ensures (forall j :: 0 <= j < |rows| ==> rows[j][0].n != month) ==> Fold(rows)[month - 1] == 0
    ensures forall j :: LastFor(rows, j, month) ==> Fold(rows)[month - 1] == rows[j][1].n
    decreases |rows|
  {
    if |rows| > 0 {
      var init := rows[..|rows| - 1];
      var last := rows[|rows| - 1];
      assert AllFoldRowsOk(init) by {
        forall i | 0 <= i < |init| ensures FoldRowOk(init[i]) { assert init[i] == rows[i]; }
      }
      FoldLastWins(init, month);
      if last[0].n == month {
        assert Fold(rows)[month - 1] == last[1].n;
        forall j | LastFor(rows, j, month) ensures j == |rows| - 1 { }
      } else {
        assert Fold(rows)[month - 1] == Fold(init)[month - 1];
        forall j | LastFor(rows, j, month) ensures LastFor(init, j, month) {
          assert init[j] == rows[j];
          forall l | j < l < |init| ensures init[l][0].n != month { assert init[l] == rows[l]; }
        }
        forall j | 0 <= j < |init| ensures init[j] == rows[j] { }
      }
    }
  }

  /** The loop of `get_monthly_active_clients_by_year` over an answer: each
      row writes its count into its month's slot, and a row that raises
      discards the partly filled list. */
  method FoldMonthly(rows: seq<Row>) returns (counts: seq<int>)
    ensures counts == MonthlyCounts(rows)
  {
    counts := Zeros();
    var i := 0;
    while i < |rows|
      invariant 0 <= i <= |rows|
      invariant AllFoldRowsOk(rows[..i])
      invariant counts == Fold(rows[..i])
    {
      var row := rows[i];
      if !FoldRowOk(row) {
        assert !AllFoldRowsOk(rows);
        return Zeros();
      }
      assert rows[..i + 1][..i] == rows[..i];
      if 1 <= row[0].n <= Months {
        counts := counts[row[0].n - 1 := row[1].n];
      }
      i := i + 1;
    }
    assert rows[..i] == rows;
  }

  /** The chart's data for `year`: the query's rows folded into twelve
      monthly slots. */
  method MonthlyActiveByYear(db: Query -> seq<Row>, year: int) returns (counts: seq<int>)
    ensures counts == MonthlyCounts(ExecuteQuery(db, MonthlyQuery(year)))
    ensures |counts| == Months
  {
    counts := FoldMonthly(ExecuteQuery(db, MonthlyQuery(year)));
  }
}
