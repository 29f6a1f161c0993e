// The specific report queries (backend/db/reports_specific.py): clients
// per licensee, boletos per client, Rateio RZK, receivables and time to
// graduation. Each data query pages with LIMIT/OFFSET; each count query has
// the same filters and no paging.
module ReportsSpecific {
  import opened Common
  import opened SqlText
  import ReportsBase

  // ------------------------------------------------------------ clients per licensee

  const LicenciadoFrom: string :=
    "SELECT c.idconsultor, c.nome, c.cpf, c.email, c.uf, COUNT(cl.idconsultor) AS quantidade_clientes_ativos"
    + " FROM public.\"CONSULTOR\" c LEFT JOIN public.\"CLIENTES\" cl ON c.idconsultor = cl.idconsultor"
  const LicenciadoConditions: seq<string> :=
    ["cl.data_ativo IS NOT NULL", "(cl.origem IS NULL OR cl.origem IN ('', 'WEB', 'BACKOFFICE', 'APP'))"]
  const LicenciadoOrder: string :=
    " GROUP BY c.idconsultor, c.nome, c.cpf, c.email, c.uf ORDER BY quantidade_clientes_ativos DESC, c.nome"
  const LicenciadoCountFrom: string :=
    "SELECT COUNT(DISTINCT c.idconsultor) FROM public.\"CONSULTOR\" c INNER JOIN public.\"CLIENTES\" cl ON c.idconsultor = cl.idconsultor"

  /** The licensee report has no supplier filter: its only parameters are
      the limit, when given, then the offset, when positive. */
  function LicenciadoQuery(limit: Option<int>, offset: int): (q: Query)
    ensures Binds(q)
    ensures q.params == PagingParams(limit, offset)
  {
    FixedQuery(LicenciadoFrom, LicenciadoConditions, SupplierCond(), LicenciadoOrder, None, limit, offset)
  }

  function LicenciadoCountQuery(): (q: Query)
    ensures Binds(q)
    ensures q.params == []
  {
    FixedQuery(LicenciadoCountFrom, LicenciadoConditions, SupplierCond(), "", None, None, 0)
  }

  /** `get_clientes_por_licenciado_data`. */
  method LicenciadoData(db: Query -> seq<Row>, offset: int, limit: Option<int>) returns (rows: seq<Row>)
    ensures rows == db(LicenciadoQuery(limit, offset))
  {
    var q := BuildFixed(LicenciadoFrom, LicenciadoConditions, SupplierCond(), LicenciadoOrder, None, limit, offset);
    rows := ExecuteQuery(db, q);
  }

  /** `count_clientes_por_licenciado`. */
  method LicenciadoCount(db: Query -> seq<Row>) returns (n: Value)
    ensures n == CountOf(FetchOne(db, LicenciadoCountQuery()))
  {
    n := CountOf(FetchOne(db, LicenciadoCountQuery()));
  }

  // ------------------------------------------------------------ boletos per client

  const BoletosFrom: string :=
    "SELECT c.idcliente, c.nome, c.numinstalacao, c.celular, c.cidade,"
    + " CASE WHEN c.concessionaria IS NULL OR c.concessionaria = '' THEN '' ELSE (c.uf || '-' || c.concessionaria) END AS regiao,"
    + " c.fornecedora, TO_CHAR(c.data_ativo, 'DD/MM/YYYY') AS data_ativo_formatado,"
    + " CASE WHEN c.data_ativo IS NOT NULL THEN EXTRACT(DAY FROM (NOW() - c.data_ativo))::INTEGER ELSE NULL END AS dias_ativo,"
    + " COUNT(rcb.numinstalacao) AS quantidade_registros_rcb"
    + " FROM public.\"CLIENTES\" c LEFT JOIN public.\"RCB_CLIENTES\" rcb ON c.numinstalacao = rcb.numinstalacao"
  const BoletosGroupOrder: string :=
    " GROUP BY c.idcliente, c.nome, c.numinstalacao, c.celular, c.cidade, regiao, c.fornecedora, c.data_ativo, dias_ativo ORDER BY c.idcliente"
  const BoletosCountFrom: string := "SELECT COUNT(DISTINCT c.idcliente) FROM public.\"CLIENTES\" c"
  const BoletosFixed: seq<string> := [LiveOriginCond, "c.data_ativo IS NOT NULL"]

  /** The cancelled-status filter with its pattern as a parameter. */
  function CancelledCond(): (r: seq<Piece>)
    ensures SlotRoles(r) == [CancelledPattern] && Pct !in r
  {
    var r := [Lit("(c.status NOT ILIKE "), Slot(CancelledPattern), Lit(" OR c.status IS NULL)")];
    assert r[1..] == [Slot(CancelledPattern), Lit(" OR c.status IS NULL)")];
    assert r[1..][1..] == [Lit(" OR c.status IS NULL)")];
    r
  }

  /** The pattern `'CANCELADO%'`, passed as the first parameter. */
  const CancelledParam: Param := Param(CancelledPattern, Text("CANCELADO%"))

  /** The leading boletos conditions: origin, activation date, and the
      cancelled-status filter holding the one leading placeholder. */
  function BoletosPre(): (r: seq<seq<Piece>>)
    ensures CondsPctFree(r) && CondRoles(r) == Roles([CancelledParam])
  {
    FixedRoles(BoletosFixed);
    CondRolesAppend(Fixed(BoletosFixed), [CancelledCond()]);
    assert CondRoles([CancelledCond()]) == [CancelledPattern] + CondRoles([]);
    Fixed(BoletosFixed) + [CancelledCond()]
  }

  /** `get_boletos_por_cliente_data`: the pattern, then the supplier name
      when the filter applies, then the limit and the offset. */
  function BoletosQuery(f: Option<string>, limit: Option<int>, offset: int): (q: Query)
    ensures Binds(q)
    ensures q.params == [CancelledParam] + SupplierParams(f) + PagingParams(limit, offset)
  {
    Filtered([Lit(BoletosFrom)], BoletosPre(), [CancelledParam], SupplierCond(), [Lit(BoletosGroupOrder)], f, limit, offset)
  }

  /** `count_boletos_por_cliente`: the same conditions, no paging. */
  function BoletosCountQuery(f: Option<string>): (q: Query)
    ensures Binds(q)
    ensures q.params == [CancelledParam] + SupplierParams(f)
  {
    assert [CancelledParam] + SupplierParams(f) + PagingParams(None, 0) == [CancelledParam] + SupplierParams(f);
    Filtered([Lit(BoletosCountFrom)], BoletosPre(), [CancelledParam], SupplierCond(), [Lit("")], f, None, 0)
  }

  method BoletosData(db: Query -> seq<Row>, offset: int, limit: Option<int>, f: Option<string>) returns (rows: seq<Row>)
    ensures rows == db(BoletosQuery(f, limit, offset))
  {
    var q := BuildFiltered([Lit(BoletosFrom)], BoletosPre(), [CancelledParam], SupplierCond(), [Lit(BoletosGroupOrder)], f, limit, offset);
    rows := ExecuteQuery(db, q);
  }

  method BoletosCount(db: Query -> seq<Row>, f: Option<string>) returns (n: Value)
    ensures n == CountOf(FetchOne(db, BoletosCountQuery(f)))
  {
    var q := BuildFiltered([Lit(BoletosCountFrom)], BoletosPre(), [CancelledParam], SupplierCond(), [Lit("")], f, None, 0);
    n := CountOf(FetchOne(db, q));
  }

  /** The count's parameters are the data query's with the limit and offset
      removed; the pattern is always the first parameter and the supplier
      name is present exactly when the filter applies. */
  lemma BoletosCountMatchesData(f: Option<string>, limit: Option<int>, offset: int)
    ensures BoletosQuery(f, limit, offset).params == BoletosCountQuery(f).params + PagingParams(limit, offset)
    ensures BoletosQuery(f, limit, offset).params[0] == CancelledParam
    ensures Supplier in Roles(BoletosCountQuery(f).params) <==> SupplierFilterApplies(f)
  {
    SupplierParamsRoles(f);
    RolesAppend([CancelledParam], SupplierParams(f));
  }

  // ------------------------------------------------------------ Rateio RZK

  /** The RZK ID lists are the base ID lists with the supplier fixed to
      'RZK' in the text: no parameters at all. */
  const RzkNovaConditions: seq<string> := ["c.fornecedora = 'RZK'"] + ReportsBase.NovaConditions
  const RzkEnviadaConditions: seq<string> := ["c.fornecedora = 'RZK'"] + ReportsBase.EnviadaConditions

  /** `get_rateio_rzk_base_nova_ids`. */
  method RzkNovaIds(db: Query -> seq<Row>) returns (ids: seq<Value>)
    ensures ids == FirstColumn(db(ReportsBase.IdListQuery(ReportsBase.NovaFrom, RzkNovaConditions, ReportsBase.NovaGroupBy, None)))
  {
    ids := ReportsBase.FetchIdList(db, ReportsBase.NovaFrom, RzkNovaConditions, ReportsBase.NovaGroupBy, None);
  }

  /** `get_rateio_rzk_base_enviada_ids`. */
  method RzkEnviadaIds(db: Query -> seq<Row>) returns (ids: seq<Value>)
    ensures ids == FirstColumn(db(ReportsBase.IdListQuery(ReportsBase.EnviadaFrom, RzkEnviadaConditions, "", None)))
  {
    ids := ReportsBase.FetchIdList(db, ReportsBase.EnviadaFrom, RzkEnviadaConditions, "", None);
  }

  /** The RZK ID queries bind nothing. */
  lemma RzkIdsUnparameterised()
    ensures ReportsBase.IdListQuery(ReportsBase.NovaFrom, RzkNovaConditions, ReportsBase.NovaGroupBy, None).params == []
    ensures ReportsBase.IdListQuery(ReportsBase.EnviadaFrom, RzkEnviadaConditions, "", None).params == []
    ensures Directives(ReportsBase.IdListQuery(ReportsBase.EnviadaFrom, RzkEnviadaConditions, "", None).pieces) == Some([])
  {
  }

  /** The 46 Rateio RZK columns, in report order. */
  const RzkFields: seq<Field> := [
    Col("c.idcliente"), Col("c.nome"), Col("c.numinstalacao"), Col("c.celular"), Col("c.cidade"),
    As("CASE WHEN c.concessionaria IS NULL OR c.concessionaria = '' THEN c.uf ELSE (c.uf || '-' || c.concessionaria) END", "regiao"),
    As("TO_CHAR(c.data_ativo, 'DD/MM/YYYY')", "data_ativo_formatado"), Col("c.consumomedio"),
    As("c.status", "devolutiva"), As("TO_CHAR(c.dtcad, 'DD/MM/YYYY')", "dtcad"), Col("c.\"cpf/cnpj\""),
    Col("c.numcliente"), Col("c.email"), Col("c.rg"), Col("c.emissor"), As("co.nome", "licenciado"),
    Col("c.cep"), Col("c.endereco"), Col("c.numero"), Col("c.bairro"), Col("c.complemento"), Col("c.cnpj"),
    Col("c.razao"), Col("c.fantasia"), Col("c.ufconsumo"), Col("c.classificacao"), As("c.keycontrato", "chave_contrato"),
    Col("c.link_documento"), Col("c.caminhoarquivo"), Col("c.caminhoarquivocnpj"), Col("c.caminhoarquivodoc1"),
    Col("c.caminhoarquivodoc2"), Col("c.caminhoarquivoenergia2"), Col("c.caminhocontratosocial"),
    Col("c.caminhocomprovante"), Col("c.caminhoarquivoestatutoconvencao"), Col("c.senhapdf"), Col("c.fornecedora"),
    Col("c.desconto_cliente"), As("TO_CHAR(c.dtnasc, 'DD/MM/YYYY')", "dtnasc"), Col("c.logindistribuidora"),
    Col("c.senhadistribuidora"), As("c.nome", "nome_cliente_rateio"), Col("c.nacionalidade"), Col("c.profissao"),
    Col("c.estadocivil")
  ]

  /** The RZK list has 46 columns and reads the licensee's name from the
      consultant table, so the by-ID query joins it. */
  lemma RzkFieldsFacts()
    ensures |RzkFields| == 46
    ensures NeedsConsultorJoin(RzkFields)
    ensures JoinFor(RzkFields) == ConsultorJoin
  {
    assert StartsWith(FieldText(RzkFields[15]), "co.");
  }

  const ClientesFrom: string := "FROM" + " public.\"CLIENTES\" c"

  /** The FROM and JOIN parts as `get_rateio_rzk_client_details_by_ids` and
      `get_rateio_rzk_data` write them: both stripped, then pasted together
      with no separator. */
  function RzkFromAsWritten(): (r: string)
  {
    Strip(ClientesFrom) + Strip(ConsultorJoin)
  }

  /** The stripped JOIN loses its leading blank, so the table alias `c`
      runs straight into `LEFT`: the statement names the table `cLEFT` and
      the later references to `c.` have no table. */
  lemma RzkAliasFused()
    ensures RzkFromAsWritten() == ClientesFrom + ConsultorJoin[1..]
    ensures |ClientesFrom| >= 1 && RzkFromAsWritten()[|ClientesFrom| - 1] == 'c' && RzkFromAsWritten()[|ClientesFrom|] == 'L'
  {
    var j := ConsultorJoin;
    assert IsSpace(j[0]) && j[1] == 'L' && j[|j| - 1] == 'r';
    assert j[1..][0] == 'L' && j[1..][|j| - 2] == 'r';
    assert Strip(j[1..]) == j[1..];
    assert ClientesFrom[0] == 'F' && ClientesFrom[|ClientesFrom| - 1] == 'c';
    assert Strip(ClientesFrom) == ClientesFrom;
  }

  /** The FROM and JOIN parts with the blank kept, as the base report writes
      them; the RZK queries of this model use this form. */
  function RzkFrom(): (r: string)
    ensures |r| > |ClientesFrom| && r[|ClientesFrom| - 1] == 'c' && r[|ClientesFrom|] == ' '
    ensures r[..|ClientesFrom|] == ClientesFrom
  {
    assert ClientesFrom[|ClientesFrom| - 1] == 'c' && ConsultorJoin[0] == ' ';
    ClientesFrom + ConsultorJoin
  }

  /** The RZK by-ID detail text: the RZK columns, the joined consultant
      table, the ID placeholder and the origin whitelist. */
  function RzkDetailsText(): (ps: seq<Piece>)
    ensures Directives(ps) == Some([IdList])
  {
    IdsQueryText(RzkFields, LiveOrigins)
  }

  /** `get_rateio_rzk_client_details_by_ids`: [] for no IDs, else the rows of
      every batch of at most `batchSize` consecutive IDs, in batch order. */
  method RzkClientDetailsByIds(db: Query -> seq<Row>, ids: seq<int>, batchSize: int) returns (details: seq<Row>)
    ensures |ids| == 0 || batchSize <= 0 ==> details == []
    ensures |ids| > 0 && batchSize > 0 ==> details == FetchAll(db, RzkDetailsText(), Batches(ids, batchSize))
  {
    if |ids| == 0 {
      return [];
    }
    details := FetchInBatches(db, RzkDetailsText(), ids, batchSize);
  }

  /** The RZK display shows the base already sent: supplier RZK, rateio 'S'. */
  const RzkDataConditions: seq<string> := ["c.fornecedora = 'RZK'", "c.rateio = 'S'", LiveOriginCond]

  function RzkHead(): string
  {
    "SELECT " + SelectList(RzkFields) + " " + RzkFrom()
  }

  /** `get_rateio_rzk_data`: only the limit and the offset are parameters. */
  function RzkQuery(limit: Option<int>, offset: int): (q: Query)
    ensures Binds(q)
    ensures q.params == PagingParams(limit, offset)
  {
    FixedQuery(RzkHead(), RzkDataConditions, SupplierCond(), " ORDER BY c.idcliente", None, limit, offset)
  }

  /** `count_rateio_rzk`: the same conditions, no parameters. */
  function RzkCountQuery(): (q: Query)
    ensures Binds(q)
    ensures q.params == []
  {
    FixedQuery("SELECT COUNT(c.idcliente) " + ClientesFrom, RzkDataConditions, SupplierCond(), "", None, None, 0)
  }

  method RzkData(db: Query -> seq<Row>, offset: int, limit: Option<int>) returns (rows: seq<Row>)
    ensures rows == db(RzkQuery(limit, offset))
  {
    var q := BuildFixed(RzkHead(), RzkDataConditions, SupplierCond(), " ORDER BY c.idcliente", None, limit, offset);
    rows := ExecuteQuery(db, q);
  }

  method RzkCount(db: Query -> seq<Row>) returns (n: Value)
    ensures n == CountOf(FetchOne(db, RzkCountQuery()))
  {
    n := CountOf(FetchOne(db, RzkCountQuery()));
  }

  // ------------------------------------------------------------ receivables

  /** The 40 receivables columns, in report order. */
  const RecebiveisFields: seq<Field> := [
    Col("rcb.idrcb"), As("c.idcliente", "codigo_cliente"), As("c.nome", "cliente_nome"), Col("rcb.numinstalacao"),
    Col("rcb.valorseria"), Col("rcb.valorapagar"), Col("rcb.valorcomcashback"),
    As("TO_CHAR(rcb.mesreferencia, 'MM/YYYY')", "data_referencia"),
    As("TO_CHAR(rcb.dtvencimento, 'DD/MM/YYYY')", "data_vencimento"),
    As("TO_CHAR(rcb.dtpagamento, 'DD/MM/YYYY')", "data_pagamento"),
    As("TO_CHAR(rcb.cdatavencoriginal, 'DD/MM/YYYY')", "data_vencimento_original"),
    Col("c.celular"), Col("c.email"), As("c.status_financeiro", "status_financeiro_cliente"), Col("c.numcliente"),
    As("c.idconsultor", "id_licenciado"), As("co.nome", "nome_licenciado"), As("co.celular", "celular_licenciado"),
    As("CASE WHEN rcb.dtpagamento IS NOT NULL THEN 'PAGO' WHEN rcb.dtvencimento >= CURRENT_DATE THEN 'A RECEBER' ELSE 'VENCIDO' END", "status_calculado"),
    Col("rcb.urldemonstrativo"), Col("rcb.urlboleto"), Col("rcb.qrcode"), Col("rcb.urlcontacemig"),
    As("rcb.nvalordistribuidora", "valor_distribuidora"), Col("rcb.codigobarra"), Col("c.ufconsumo"),
    As("c.fornecedora", "fornecedora_cliente"), Col("c.concessionaria"), Col("c.cnpj"),
    As("c.\"cpf/cnpj\"", "cpf_cnpj_cliente"), Col("rcb.nrodocumento"), Col("rcb.idcomerc"), Col("rcb.idbomfuturo"),
    Col("rcb.energiainjetada"), Col("rcb.energiacompensada"), Col("rcb.energiaacumulada"),
    Col("rcb.energiaajuste"), Col("rcb.energiafaturamento"), Col("c.desconto_cliente"),
    As("COUNT(rcb.idrcb) OVER (PARTITION BY c.idcliente)", "qtd_rcb_cliente")
  ]

  const RecebiveisFrom: string :=
    "FROM public.\"RCB_CLIENTES\" rcb LEFT JOIN public.\"CLIENTES\" c ON rcb.numinstalacao = c.numinstalacao"
    + " LEFT JOIN public.\"CONSULTOR\" co ON c.idconsultor = co.idconsultor"

  function RecebiveisHead(): string
  {
    "SELECT " + SelectList(RecebiveisFields) + " " + RecebiveisFrom
  }

  /** `get_recebiveis_clientes_data`: the supplier name, when the filter
      applies, precedes the limit and the offset. */
  function RecebiveisQuery(f: Option<string>, limit: Option<int>, offset: int): (q: Query)
    ensures Binds(q)
    ensures q.params == SupplierParams(f) + PagingParams(limit, offset)
  {
    FixedQuery(RecebiveisHead(), [LiveOriginCond], SupplierCond(), " ORDER BY rcb.idrcb", f, limit, offset)
  }

  /** `count_recebiveis_clientes`. */
  function RecebiveisCountQuery(f: Option<string>): (q: Query)
    ensures Binds(q)
    ensures q.params == SupplierParams(f)
  {
    assert SupplierParams(f) + PagingParams(None, 0) == SupplierParams(f);
    FixedQuery("SELECT COUNT(rcb.idrcb) " + RecebiveisFrom, [LiveOriginCond], SupplierCond(), "", f, None, 0)
  }

  method RecebiveisData(db: Query -> seq<Row>, offset: int, limit: Option<int>, f: Option<string>) returns (rows: seq<Row>)
    ensures rows == db(RecebiveisQuery(f, limit, offset))
  {
    var q := BuildFixed(RecebiveisHead(), [LiveOriginCond], SupplierCond(), " ORDER BY rcb.idrcb", f, limit, offset);
    rows := ExecuteQuery(db, q);
  }

  method RecebiveisCount(db: Query -> seq<Row>, f: Option<string>) returns (n: Value)
    ensures n == CountOf(FetchOne(db, RecebiveisCountQuery(f)))
  {
    n := CountOf(FetchOne(db, RecebiveisCountQuery(f)));
  }

  /** Receivables: the supplier placeholder exists exactly when the filter
      applies, and comes before LIMIT and OFFSET. */
  lemma RecebiveisOrder(f: Option<string>, limit: Option<int>, offset: int)
    requires SupplierFilterApplies(f)
    ensures RecebiveisQuery(f, limit, offset).params[0] == Param(Supplier, Text(f.value))
    ensures Directives(RecebiveisQuery(f, limit, offset).pieces).value[0] == Supplier
    ensures RecebiveisQuery(f, limit, offset).params == RecebiveisCountQuery(f).params + PagingParams(limit, offset)
  {
  }

  // ------------------------------------------------------------ time to graduation

  const GraduacaoFrom: string :=
    "SELECT c.idconsultor, c.nome, TO_CHAR(c.data_ativo, 'DD/MM/YYYY') AS data_ativo_formatada,"
    + " TO_CHAR(cp.dtgraduacao, 'DD/MM/YYYY') AS data_graduacao_formatada,"
    + " (cp.dtgraduacao - c.data_ativo) AS dias_para_graduacao"
    + " FROM public.\"CONSULTOR\" c JOIN public.\"CONTROLE_PRO\" cp ON c.idconsultor = cp.idconsultor"
  const GraduacaoCountFrom: string :=
    "SELECT COUNT(*) FROM public.\"CONSULTOR\" c JOIN public.\"CONTROLE_PRO\" cp ON c.idconsultor = cp.idconsultor"
  const GraduacaoFixed: seq<string> :=
    ["c.data_ativo IS NOT NULL", "cp.dtgraduacao IS NOT NULL", "cp.dtgraduacao >= c.data_ativo"]
  const GraduacaoOrder: string := " ORDER BY dias_para_graduacao ASC"

  /** `if start_date:`: a date bound is used when it is given and non-empty. */
  predicate Given(s: Option<string>)
  {
    s.Some? && |s.value| > 0
  }

  /** The date-bound conditions: from `start` when given, then up to `end`. */
  function DateConds(start: Option<string>, end: Option<string>): (r: seq<seq<Piece>>)
  {
    (if Given(start) then [Cond("c.data_ativo >= ", StartDate)] else [])
    + (if Given(end) then [Cond("c.data_ativo <= ", EndDate)] else [])
  }

  /** `[start_date?, end_date?]`. */
  function DateParams(start: Option<string>, end: Option<string>): (r: seq<Param>)
    ensures |r| <= 2
  {
    (if Given(start) then [Param(StartDate, Text(start.value))] else [])
    + (if Given(end) then [Param(EndDate, Text(end.value))] else [])
  }

  lemma DateCondsRoles(start: Option<string>, end: Option<string>)
    ensures CondsPctFree(Fixed(GraduacaoFixed) + DateConds(start, end))
    ensures CondRoles(Fixed(GraduacaoFixed) + DateConds(start, end)) == Roles(DateParams(start, end))
  {
    var s := if Given(start) then [Cond("c.data_ativo >= ", StartDate)] else [];
    var e := if Given(end) then [Cond("c.data_ativo <= ", EndDate)] else [];
    var sp := if Given(start) then [Param(StartDate, Text(start.value))] else [];
    var ep := if Given(end) then [Param(EndDate, Text(end.value))] else [];
    FixedRoles(GraduacaoFixed);
    assert CondRoles(s) == Roles(sp) by {
      if Given(start) { assert CondRoles(s) == [StartDate] + CondRoles([]); }
    }
    assert CondRoles(e) == Roles(ep) by {
      if Given(end) { assert CondRoles(e) == [EndDate] + CondRoles([]); }
    }
    CondRolesAppend(s, e);
    RolesAppend(sp, ep);
    CondRolesAppend(Fixed(GraduacaoFixed), s + e);
  }

  /** `get_graduacao_licenciado_data`: [start?, end?, limit?, offset?]. */
  function GraduacaoQuery(start: Option<string>, end: Option<string>, limit: Option<int>, offset: int): (q: Query)
    ensures Binds(q)
    ensures q.params == DateParams(start, end) + PagingParams(limit, offset)
  {
    DateCondsRoles(start, end);
    var p := DateParams(start, end) + PagingParams(limit, offset);
    assert DateParams(start, end) + SupplierParams(None) + PagingParams(limit, offset) == p;
    Filtered([Lit(GraduacaoFrom)], Fixed(GraduacaoFixed) + DateConds(start, end), DateParams(start, end),
             SupplierCond(), [Lit(GraduacaoOrder)], None, limit, offset)
  }

  /** `count_graduacao_licenciado`: [start?, end?]. */
  function GraduacaoCountQuery(start: Option<string>, end: Option<string>): (q: Query)
    ensures Binds(q)
    ensures q.params == DateParams(start, end)
  {
    DateCondsRoles(start, end);
    assert DateParams(start, end) + SupplierParams(None) + PagingParams(None, 0) == DateParams(start, end);
    Filtered([Lit(GraduacaoCountFrom)], Fixed(GraduacaoFixed) + DateConds(start, end), DateParams(start, end),
             SupplierCond(), [Lit("")], None, None, 0)
  }

  /** The date bounds as the source appends them, one after the other. */
  method GraduacaoBounds(start: Option<string>, end: Option<string>) returns (conds: seq<seq<Piece>>, params: seq<Param>)
    ensures conds == Fixed(GraduacaoFixed) + DateConds(start, end)
    ensures params == DateParams(start, end)
  {
    conds := Fixed(GraduacaoFixed);
    params := [];
    if Given(start) {
      conds := conds + [Cond("c.data_ativo >= ", StartDate)];
      params := params + [Param(StartDate, Text(start.value))];
    }
    if Given(end) {
      conds := conds + [Cond("c.data_ativo <= ", EndDate)];
      params := params + [Param(EndDate, Text(end.value))];
    }
  }

  method GraduacaoData(db: Query -> seq<Row>, offset: int, limit: Option<int>, start: Option<string>, end: Option<string>)
    returns (rows: seq<Row>)
    ensures rows == db(GraduacaoQuery(start, end, limit, offset))
  {
    var conds, params := GraduacaoBounds(start, end);
    DateCondsRoles(start, end);
    var q := BuildFiltered([Lit(GraduacaoFrom)], conds, params, SupplierCond(), [Lit(GraduacaoOrder)], None, limit, offset);
    rows := ExecuteQuery(db, q);
  }

  method GraduacaoCount(db: Query -> seq<Row>, start: Option<string>, end: Option<string>) returns (n: Value)
    ensures n == CountOf(FetchOne(db, GraduacaoCountQuery(start, end)))
  {
    var conds, params := GraduacaoBounds(start, end);
    DateCondsRoles(start, end);
    var q := BuildFiltered([Lit(GraduacaoCountFrom)], conds, params, SupplierCond(), [Lit("")], None, None, 0);
    n := CountOf(FetchOne(db, q));
  }

  lemma DateRoles(start: Option<string>, end: Option<string>)
    ensures Roles(DateParams(start, end)) == (if Given(start) then [StartDate] else []) + (if Given(end) then [EndDate] else [])
  {
    RolesAppend(if Given(start) then [Param(StartDate, Text(start.value))] else [],
                if Given(end) then [Param(EndDate, Text(end.value))] else []);
  }

  /** Each date bound has a placeholder exactly when its string is given and
      non-empty. */
  lemma GraduacaoDateBounds(start: Option<string>, end: Option<string>, limit: Option<int>, offset: int)
    ensures StartDate in Directives(GraduacaoQuery(start, end, limit, offset).pieces).value <==> Given(start)
    ensures EndDate in Directives(GraduacaoQuery(start, end, limit, offset).pieces).value <==> Given(end)
  {
    var q := GraduacaoQuery(start, end, limit, offset);
    DateRoles(start, end);
    RolesAppend(DateParams(start, end), PagingParams(limit, offset));
    assert Directives(q.pieces).value == Roles(DateParams(start, end)) + PagingRoles(limit.Some?, offset > 0);
  }

  /** LIMIT and OFFSET appear exactly when given, and the count query binds
      the data query's parameters without the paging ones. */
  lemma GraduacaoPaging(start: Option<string>, end: Option<string>, limit: Option<int>, offset: int)
    ensures Limit in Directives(GraduacaoQuery(start, end, limit, offset).pieces).value <==> limit.Some?
    ensures Offset in Directives(GraduacaoQuery(start, end, limit, offset).pieces).value <==> offset > 0
    ensures GraduacaoQuery(start, end, limit, offset).params == GraduacaoCountQuery(start, end).params + PagingParams(limit, offset)
  {
    DateRoles(start, end);
    PagingPlaceholders(GraduacaoQuery(start, end, limit, offset), DateParams(start, end), limit, offset);
  }
}
