// The live "Boletos por Cliente" report (backend/db/reports_boletos.py).
// The query text is grown step by step; the cancelled-status pattern is
// written into the text with its '%' instead of being passed as a
// parameter. `AsWrittenQuery` models that text; `DataQuery` and
// `CountQuery` are the same statements with the pattern as a parameter.
module ReportsBoletos {
  import opened Common
  import opened SqlText

  const SelectFrom: string :=
    "SELECT c.idcliente AS codigo, c.nome, c.numinstalacao AS instalacao, c.numcliente AS numero_cliente,"
    + " COALESCE(NULLIF(c.cnpj, ''), c.\"cpf/cnpj\") AS cpf_cnpj, c.cidade,"
    + " CASE WHEN c.concessionaria IS NULL OR c.concessionaria = '' THEN '' ELSE (c.uf || '-' || c.concessionaria) END AS regiao,"
    + " CASE WHEN COALESCE(c.fornecedora, ''::character varying)::text <> ''::text THEN c.fornecedora::text"
    + " ELSE CASE WHEN COALESCE(c.idcomerc, ''::character varying)::text <> ''::text AND c.ufconsumo::text = 'MG'::text THEN 'COMERC MG'::text"
    + " ELSE CASE WHEN c.ufconsumo::text = 'MT'::text THEN 'BOM FUTURO'::text"
    + " ELSE CASE WHEN c.ufconsumo::text = 'PE'::text THEN 'COMERC PE'::text"
    + " ELSE CASE WHEN c.ufconsumo::text = 'GO'::text THEN 'BC ENERGIA'::text"
    + " ELSE CASE WHEN COALESCE(c.idcomerc, ''::character varying)::text = ''::text AND c.ufconsumo::text = 'MG'::text THEN 'SOLATIO'::text"
    + " ELSE ''::text END END END END END END AS fornecedora,"
    + " TO_CHAR(c.data_ativo, 'DD/MM/YYYY') AS data_ativo,"
    + " CASE WHEN c.data_ativo IS NOT NULL THEN EXTRACT(DAY FROM (NOW() - c.data_ativo))::INTEGER ELSE NULL END AS dias_desde_ativacao,"
    + " c.validadosucesso AS validado_sucesso, c.status AS devolutiva, c.idconsultor AS id_licenciado, cons.nome AS licenciado,"
    + " CASE WHEN cp.dtgraduacao IS NULL THEN 'NÃO' ELSE 'SIM' END AS status_pro,"
    + " TO_CHAR(cp.dtgraduacao, 'DD/MM/YYYY') AS data_graduacao_pro, COUNT(rcb.numinstalacao) AS quantidade_boletos"
    + Joins

  const CountFrom: string := "SELECT COUNT(DISTINCT c.idcliente)" + Joins

  const Joins: string :=
    " FROM public.\"CLIENTES\" c LEFT JOIN public.\"RCB_CLIENTES\" rcb ON c.numinstalacao = rcb.numinstalacao"
    + " LEFT JOIN public.\"CONSULTOR\" cons ON c.idconsultor = cons.idconsultor"
    + " LEFT JOIN ( SELECT idconsultor, MAX(dtgraduacao) AS dtgraduacao FROM public.\"CONTROLE_PRO\" GROUP BY idconsultor ) cp"
    + " ON c.idconsultor = cp.idconsultor"

  const GroupOrder: string :=
    " GROUP BY c.idcliente, c.nome, c.numinstalacao, c.celular, c.cidade,"
    + " CASE WHEN c.concessionaria IS NULL OR c.concessionaria = '' THEN '' ELSE (c.uf || '-' || c.concessionaria) END,"
    + " c.fornecedora, c.data_ativo,"
    + " CASE WHEN c.data_ativo IS NOT NULL THEN EXTRACT(DAY FROM (NOW() - c.data_ativo))::INTEGER ELSE NULL END,"
    + " c.ufconsumo, c.idcomerc, c.validadosucesso, c.status, c.idconsultor, cons.nome, cp.dtgraduacao, c.cnpj,"
    + " c.\"cpf/cnpj\", c.numcliente ORDER BY c.idcliente"

  // ------------------------------------------------------------ as written

  /** The WHERE part as the source writes it: the origin whitelist, then the
      status filter with the pattern 'CANCELADO%' inside the text. The '%'
      is followed by a quote, which is not a formatting directive. */
  function WhereAsWritten(): (r: seq<Piece>)
    ensures |r| == 3 && Pct !in r[..1] && r[1] == Pct && r[2].Lit?
  {
    [Lit(" WHERE " + LiveOriginCond + " AND (c.status NOT ILIKE 'CANCELADO"), Pct, Lit("' OR c.status IS NULL)")]
  }

  /** The statement as the source grows it with `+=`. */
  function AsWrittenQuery(head: string, f: Option<string>, tail: string, limit: Option<int>, offset: int): (q: Query)
  {
    Query([Lit(head)] + WhereAsWritten()
          + (if SupplierFilterApplies(f) then [Lit(" AND c.fornecedora = "), Slot(Supplier)] else [])
          + [Lit(tail)] + Paging(limit.Some?, offset > 0),
          SupplierParams(f) + PagingParams(limit, offset))
  }

  /** The statement step by step, as both report functions grow it: the
      fixed `head`, the supplier condition and name when the filter
      applies, the fixed `tail` (GROUP BY and ORDER BY for the data, nothing
      for the count), then LIMIT and OFFSET with their values. */
  method BuildAsWritten(head: string, tail: string, f: Option<string>, limit: Option<int>, offset: int) returns (q: Query)
    ensures q == AsWrittenQuery(head, f, tail, limit, offset)
  {
    var filter: seq<Piece> := [];
    var filterParams: seq<Param> := [];
    if SupplierFilterApplies(f) {
      filter := [Lit(" AND c.fornecedora = "), Slot(Supplier)];
      filterParams := [Param(Supplier, Text(f.value))];
    }
    var limitPieces: seq<Piece> := [];
    var limitParams: seq<Param> := [];
    if limit.Some? {
      limitPieces := [Lit(" LIMIT "), Slot(Limit)];
      limitParams := [Param(Limit, Int(limit.value))];
    }
    var offsetPieces: seq<Piece> := [];
    var offsetParams: seq<Param> := [];
    if offset > 0 {
      offsetPieces := [Lit(" OFFSET "), Slot(Offset)];
      offsetParams := [Param(Offset, Int(offset))];
    }
    q := Query([Lit(head)] + WhereAsWritten() + filter + [Lit(tail)] + (limitPieces + offsetPieces),
               filterParams + (limitParams + offsetParams));
  }

  /** A '%' followed by fixed text is no directive: the whole text is
      rejected, whatever comes before (placeholders or not) or after. */
  lemma {:induction false} StrayPct(a: seq<Piece>, rest: seq<Piece>)
    requires Pct !in a && |rest| > 0 && rest[0].Lit?
    ensures Directives(a + [Pct] + rest) == None
    decreases |a|
  {
    var ps := a + [Pct] + rest;
    if |a| == 0 {
      assert ps == [Pct] + rest;
      assert ps[0] == Pct && ps[1] == rest[0];
    } else {
      assert ps[0] == a[0];
      assert ps[1..] == a[1..] + [Pct] + rest;
      StrayPct(a[1..], rest);
    }
  }

  /** The pieces around the stray '%' of the WHERE text. */
  lemma SplitAtPct(a: seq<Piece>, w: seq<Piece>, after: seq<Piece>)
    requires |a| == 1 && |w| == 3 && w[1] == Pct
    ensures a + w + after == [a[0], w[0]] + [Pct] + ([w[2]] + after)
  {
    assert a == [a[0]];
    assert w == [w[0], Pct, w[2]];
  }

  /** Whatever the supplier, limit and offset, the driver rejects the text
      as written, so `execute_query` catches the error and every database
      yields no rows. */
  lemma AsWrittenRejected(head: string, f: Option<string>, tail: string, limit: Option<int>, offset: int, db: Query -> seq<Row>)
    ensures Directives(AsWrittenQuery(head, f, tail, limit, offset).pieces) == None
    ensures !DriverAccepts(AsWrittenQuery(head, f, tail, limit, offset))
    ensures ExecuteQuery(db, AsWrittenQuery(head, f, tail, limit, offset)) == []
  {
    var w := WhereAsWritten();
    var after := (if SupplierFilterApplies(f) then [Lit(" AND c.fornecedora = "), Slot(Supplier)] else [])
      + [Lit(tail)] + Paging(limit.Some?, offset > 0);
    assert AsWrittenQuery(head, f, tail, limit, offset).pieces == [Lit(head)] + w + after;
    SplitAtPct([Lit(head)], w, after);
    StrayPct([Lit(head), w[0]], [w[2]] + after);
  }

  /** `get_boletos_por_cliente_data` as written: always []. */
  method DataAsWritten(db: Query -> seq<Row>, f: Option<string>, offset: int, limit: Option<int>) returns (rows: seq<Row>)
    ensures rows == []
  {
    var q := BuildAsWritten(SelectFrom, GroupOrder, f, limit, offset);
    AsWrittenRejected(SelectFrom, f, GroupOrder, limit, offset, db);
    rows := ExecuteQuery(db, q);
  }

  /** `result[0] if result else 0`: unlike the other counts, a NULL first
      column is returned as it is. */
  function FirstOrZero(result: Option<Row>): (n: Value)
    ensures result.None? || |result.value| == 0 ==> n == Int(0)
    ensures result.Some? && |result.value| > 0 ==> n == result.value[0]
  {
    if result.None? || |result.value| == 0 then Int(0) else result.value[0]
  }

  /** `count_boletos_por_cliente` as written: always 0. */
  method CountAsWritten(db: Query -> seq<Row>, f: Option<string>) returns (n: Value)
    ensures n == Int(0)
  {
    var q := BuildAsWritten(CountFrom, "", f, None, 0);
    AsWrittenRejected(CountFrom, f, "", None, 0, db);
    n := FirstOrZero(FetchOne(db, q));
  }

  // ------------------------------------------------------------ corrected

  /** The status filter with the pattern bound to a placeholder, as
      `reports_specific.py` writes it. */
  function StatusCond(): (r: seq<Piece>)
    ensures SlotRoles(r) == [CancelledPattern] && Pct !in r
  {
    var r := [Lit("(c.status NOT ILIKE "), Slot(CancelledPattern), Lit(" OR c.status IS NULL)")];
    assert r[1..] == [Slot(CancelledPattern), Lit(" OR c.status IS NULL)")];
    assert r[1..][1..] == [Lit(" OR c.status IS NULL)")];
    r
  }

  const Pattern: Param := Param(CancelledPattern, Text("CANCELADO%"))

  function Pre(): (r: seq<seq<Piece>>)
    ensures CondsPctFree(r) && CondRoles(r) == Roles([Pattern])
  {
    FixedRoles([LiveOriginCond]);
    CondRolesAppend(Fixed([LiveOriginCond]), [StatusCond()]);
    assert CondRoles([StatusCond()]) == [CancelledPattern] + CondRoles([]);
    Fixed([LiveOriginCond]) + [StatusCond()]
  }

  /** The data statement with the pattern as the first parameter: every
      parameter binds to its own clause; the supplier name comes before
      GROUP BY's parameters-free text, LIMIT and OFFSET after ORDER BY. */
  function DataQuery(f: Option<string>, limit: Option<int>, offset: int): (q: Query)
    ensures Binds(q)
    ensures q.params == [Pattern] + SupplierParams(f) + PagingParams(limit, offset)
  {
    Filtered([Lit(SelectFrom)], Pre(), [Pattern], SupplierCond(), [Lit(GroupOrder)], f, limit, offset)
  }

  function CountQuery(f: Option<string>): (q: Query)
    ensures Binds(q)
    ensures q.params == [Pattern] + SupplierParams(f)
  {
    assert [Pattern] + SupplierParams(f) + PagingParams(None, 0) == [Pattern] + SupplierParams(f);
    Filtered([Lit(CountFrom)], Pre(), [Pattern], SupplierCond(), [Lit("")], f, None, 0)
  }

  /** The corrected data fetch: the server's rows, or [] when it has none. */
  method Data(db: Query -> seq<Row>, f: Option<string>, offset: int, limit: Option<int>) returns (rows: seq<Row>)
    ensures rows == db(DataQuery(f, limit, offset))
  {
    var q := BuildFiltered([Lit(SelectFrom)], Pre(), [Pattern], SupplierCond(), [Lit(GroupOrder)], f, limit, offset);
    rows := ExecuteQuery(db, q);
  }

  /** The corrected count. */
  method Count(db: Query -> seq<Row>, f: Option<string>) returns (n: Value)
    ensures n == FirstOrZero(FetchOne(db, CountQuery(f)))
  {
    var q := BuildFiltered([Lit(CountFrom)], Pre(), [Pattern], SupplierCond(), [Lit("")], f, None, 0);
    n := FirstOrZero(FetchOne(db, q));
  }

  /** In the corrected data statement the supplier name is bound exactly
      when the filter applies, right after the pattern. */
  lemma CorrectedSupplier(f: Option<string>, limit: Option<int>, offset: int)
    ensures Supplier in Directives(DataQuery(f, limit, offset).pieces).value <==> SupplierFilterApplies(f)
    ensures SupplierFilterApplies(f) ==> DataQuery(f, limit, offset).params[1] == Param(Supplier, Text(f.value))
  {
    PatternThenSupplier(DataQuery(f, limit, offset), f, limit, offset);
  }

  /** Any statement binding the pattern, then the supplier's parameters,
      then the paging ones names the supplier exactly when the filter
      applies, as its second parameter. */
  lemma PatternThenSupplier(q: Query, f: Option<string>, limit: Option<int>, offset: int)
    requires Binds(q) && q.params == [Pattern] + SupplierParams(f) + PagingParams(limit, offset)
    ensures Supplier in Directives(q.pieces).value <==> SupplierFilterApplies(f)
    ensures SupplierFilterApplies(f) ==> q.params[1] == Param(Supplier, Text(f.value))
  {
    var sp := SupplierParams(f);
    RolesAppend([Pattern], sp);
    RolesAppend([Pattern] + sp, PagingParams(limit, offset));
    SupplierRoles(f);
    assert Directives(q.pieces).value == [CancelledPattern] + Roles(sp) + PagingRoles(limit.Some?, offset > 0);
  }

  /** LIMIT and OFFSET appear exactly when given, and the count binds the
      data parameters without the paging ones. */
  lemma CorrectedPaging(f: Option<string>, limit: Option<int>, offset: int)
    ensures Limit in Directives(DataQuery(f, limit, offset).pieces).value <==> limit.Some?
    ensures Offset in Directives(DataQuery(f, limit, offset).pieces).value <==> offset > 0
    ensures DataQuery(f, limit, offset).params == CountQuery(f).params + PagingParams(limit, offset)
  {
    SupplierParamsRoles(f);
    RolesAppend([Pattern], SupplierParams(f));
    PagingPlaceholders(DataQuery(f, limit, offset), [Pattern] + SupplierParams(f), limit, offset);
  }
}
