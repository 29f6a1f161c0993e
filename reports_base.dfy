// The live Base Clientes / Rateio Geral report queries
// (backend/db/reports_base.py): the ID lists of the "base nova" and
// "base enviada", the by-ID detail fetch in batches, and the paginated
// report and count queries.
module ReportsBase {
  import opened Common
  import opened SqlText

  // ------------------------------------------------------------ field lists

  /** The Base Clientes report reads every column of the customer view. */
  const AllColumns: seq<Field> := [Col("*")]

  /** The 44 Rateio Geral columns, in report order. */
  const RateioFields: seq<Field> := [
    Col("c.idcliente"), Col("c.nome"), Col("c.numinstalacao"), Col("c.celular"), Col("c.cidade"),
    As("CASE WHEN c.concessionaria IS NULL OR c.concessionaria = '' THEN c.uf ELSE (c.uf || '-' || c.concessionaria) END", "regiao"),
    As("TO_CHAR(c.data_ativo, 'DD/MM/YYYY')", "data_ativo"), Col("c.consumomedio"),
    As("TO_CHAR(c.dtcad, 'DD/MM/YYYY')", "dtcad"), Col("c.\"cpf/cnpj\""), Col("c.numcliente"),
    Col("c.email"), Col("c.rg"), Col("c.emissor"), Col("c.cep"), As("co.nome", "consultor_nome"),
    Col("c.endereco"), Col("c.numero"), Col("c.bairro"), Col("c.complemento"), Col("c.cnpj"), Col("c.razao"),
    Col("c.fantasia"), Col("c.ufconsumo"), Col("c.classificacao"), Col("c.link_documento"),
    Col("c.caminhoarquivo"), Col("c.caminhoarquivocnpj"), Col("c.caminhoarquivodoc1"),
    Col("c.caminhoarquivodoc2"), Col("c.caminhoarquivoenergia2"), Col("c.caminhocontratosocial"),
    Col("c.caminhocomprovante"), Col("c.caminhoarquivoestatutoconvencao"), Col("c.senhapdf"),
    Col("c.fornecedora"), Col("c.desconto_cliente"), As("TO_CHAR(c.dtnasc, 'DD/MM/YYYY')", "dtnasc"),
    Col("c.logindistribuidora"), Col("c.senhadistribuidora"), As("c.nome", "nome_cliente_rateio"),
    Col("c.nacionalidade"), Col("c.profissao"), Col("c.estadocivil")
  ]

  /** `_get_query_fields`: the report type is compared in lower case; the
      customer view is read whole, Rateio Geral by its field list, and any
      other type has no fields. */
  function QueryFields(reportType: string): (r: seq<Field>)
    ensures |r| > 0 <==> Lower(reportType) == "base_clientes" || Lower(reportType) == "rateio"
    ensures Lower(reportType) == "base_clientes" ==> r == AllColumns
    ensures Lower(reportType) == "rateio" ==> |r| == 44 && r == RateioFields
  {
    var t := Lower(reportType);
    if t == "base_clientes" then AllColumns
    else if t == "rateio" then RateioFields
    else []
  }

  /** The field lookup ignores case, and only the Rateio list needs the
      consultant join. */
  lemma QueryFieldsFacts(reportType: string)
    ensures QueryFields(reportType) == QueryFields(Lower(reportType))
    ensures QueryFields("RATEIO") == RateioFields && QueryFields("Base_Clientes") == AllColumns
    ensures NeedsConsultorJoin(RateioFields) && !NeedsConsultorJoin(AllColumns)
  {
    LowerIdempotent(reportType);
    assert StartsWith(FieldText(RateioFields[15]), "co.");
    assert !StartsWith(FieldText(AllColumns[0]), "co.");
  }

  // ------------------------------------------------------------ rateio ID lists

  const NovaFrom: string :=
    "SELECT DISTINCT cc.idcliente FROM public.\"CLIENTES_CONTRATOS\" cc"
    + " INNER JOIN public.\"CLIENTES_CONTRATOS_SIGNER\" ccs ON cc.idcliente_contrato = ccs.idcliente_contrato"
    + " INNER JOIN public.\"CLIENTES\" c ON cc.idcliente = c.idcliente"
  const NovaGroupBy: string := " GROUP BY cc.idcliente_contrato, cc.idcliente HAVING bool_and(ccs.signature_at IS NOT NULL)"
  const NovaConditions: seq<string> := [
    "cc.type_document = 'procuracao_igreen'", "upper(cc.status) = 'ATIVO'",
    "c.data_ativo IS NOT NULL", "c.status IS NULL", "c.validadosucesso = 'S'",
    "c.rateio = 'N'", LiveOriginCond,
    "NOT EXISTS ( SELECT 1 FROM public.\"DEVOLUTIVAS\" d WHERE d.idcliente = c.idcliente )"
  ]
  const EnviadaFrom: string := "SELECT c.idcliente FROM public.\"CLIENTES\" c"
  const EnviadaConditions: seq<string> := ["c.rateio = 'S'", LiveOriginCond]

  /** A rateio ID query: fixed conditions, then the supplier filter, no
      paging. */
  function IdListQuery(from: string, conditions: seq<string>, groupBy: string, f: Option<string>): (q: Query)
    ensures Binds(q)
    ensures q.params == SupplierParams(f)
  {
    assert SupplierParams(f) + PagingParams(None, 0) == SupplierParams(f);
    FixedQuery(from, conditions, SupplierCond(), groupBy, f, None, 0)
  }

  /** Shared body of `get_base_nova_ids` / `get_base_enviada_ids`: build the
      query, run it, and keep the first column of every row. */
  method FetchIdList(db: Query -> seq<Row>, from: string, conditions: seq<string>, groupBy: string, f: Option<string>)
    returns (ids: seq<Value>)
    ensures ids == FirstColumn(db(IdListQuery(from, conditions, groupBy, f)))
  {
    var q := BuildFixed(from, conditions, SupplierCond(), groupBy, f, None, 0);
    ids := FirstColumn(ExecuteQuery(db, q));
  }

  /** `get_base_nova_ids`. */
  method BaseNovaIds(db: Query -> seq<Row>, f: Option<string>) returns (ids: seq<Value>)
    ensures ids == FirstColumn(db(IdListQuery(NovaFrom, NovaConditions, NovaGroupBy, f)))
  {
    ids := FetchIdList(db, NovaFrom, NovaConditions, NovaGroupBy, f);
  }

  /** `get_base_enviada_ids`. */
  method BaseEnviadaIds(db: Query -> seq<Row>, f: Option<string>) returns (ids: seq<Value>)
    ensures ids == FirstColumn(db(IdListQuery(EnviadaFrom, EnviadaConditions, "", f)))
  {
    ids := FetchIdList(db, EnviadaFrom, EnviadaConditions, "", f);
  }

  // ------------------------------------------------------------ details by IDs

  /** The customer view looked up by its "código" column. */
  const ViewByIds: seq<Piece> :=
    [Lit("SELECT * FROM public.\"V_CUSTOMER\" WHERE \"código\" = ANY("), Slot(IdList), Lit(") ORDER BY \"código\";")]

  /** The detail query text for a report type, or None when the type has no
      field list (the function then returns [] without querying). */
  function DetailsText(reportType: string): (r: Option<seq<Piece>>)
    ensures r.Some? <==> Lower(reportType) == "base_clientes" || Lower(reportType) == "rateio"
    ensures r.Some? ==> Directives(r.value) == Some([IdList])
  {
    if Lower(reportType) == "base_clientes" then
      OneSlot("SELECT * FROM public.\"V_CUSTOMER\" WHERE \"código\" = ANY(", IdList, ") ORDER BY \"código\";");
      Some(ViewByIds)
    else var fields := QueryFields(reportType);
      if |fields| == 0 then None else Some(IdsQueryText(fields, LiveOrigins))
  }

  /** `get_client_details_by_ids`: no IDs or an unknown type give [] without
      a query; otherwise the rows of every batch, concatenated in batch
      order, where the batches are consecutive slices of at most
      `batchSize` IDs. */
  method ClientDetailsByIds(db: Query -> seq<Row>, reportType: string, ids: seq<int>, batchSize: int)
    returns (details: seq<Row>)
    ensures |ids| == 0 || DetailsText(reportType).None? || batchSize <= 0 ==> details == []
    ensures |ids| > 0 && DetailsText(reportType).Some? && batchSize > 0 ==>
              details == FetchAll(db, DetailsText(reportType).value, Batches(ids, batchSize))
  {
    if |ids| == 0 {
      return [];
    }
    var text: seq<Piece>;
    if Lower(reportType) == "base_clientes" {
      text := ViewByIds;
    } else {
      var fields := QueryFields(reportType);
      if |fields| == 0 {
        return [];
      }
      text := IdsQueryText(fields, LiveOrigins);
    }
    details := FetchInBatches(db, text, ids, batchSize);
  }

  // ------------------------------------------------------------ paginated report

  const ViewFrom: string := "SELECT * FROM public.\"V_CUSTOMER\""
  const ViewOrder: string := " ORDER BY \"código\""
  const RateioHead: string := "SELECT " + SelectList(RateioFields) + " FROM public.\"CLIENTES\" c" + JoinFor(RateioFields)
  const RateioOrder: string := " ORDER BY c.idcliente"

  /** The supplier condition's text on the customer view's own column. */
  const ViewSupplierText: string := "\"fornecedora\" = "

  /** `build_query`'s two report layouts. */
  function ReportQuery(reportType: string, f: Option<string>, offset: int, limit: Option<int>): (q: Query)
    requires reportType == "base_clientes" || reportType == "rateio"
    ensures Binds(q)
    ensures q.params == SupplierParams(f) + PagingParams(limit, offset)
  {
    if reportType == "base_clientes" then FixedQuery(ViewFrom, [], Cond(ViewSupplierText, Supplier), ViewOrder, f, limit, offset)
    else FixedQuery(RateioHead, [LiveOriginCond], SupplierCond(), RateioOrder, f, limit, offset)
  }

  /** `build_query`: exactly "base_clientes" or "rateio" (case-sensitive),
      else ValueError. The parameters are the supplier name when the filter
      applies, then the limit when one is given, then the offset when it is
      positive, each bound to the placeholder of its own clause. */
  method BuildQuery(reportType: string, f: Option<string>, offset: int, limit: Option<int>) returns (r: Outcome<Query>)
    ensures r.Raised? <==> reportType != "base_clientes" && reportType != "rateio"
    ensures r.Raised? ==> r.kind == "ValueError"
    ensures r.Done? ==> r.value == ReportQuery(reportType, f, offset, limit)
  {
    var q: Query;
    if reportType == "base_clientes" {
      q := BuildFixed(ViewFrom, [], Cond(ViewSupplierText, Supplier), ViewOrder, f, limit, offset);
    } else if reportType == "rateio" {
      q := BuildFixed(RateioHead, [LiveOriginCond], SupplierCond(), RateioOrder, f, limit, offset);
    } else {
      return Raised("ValueError");
    }
    r := Done(q);
  }

  const ViewCount: string := "SELECT COUNT(*) FROM public.\"V_CUSTOMER\""
  const RateioCount: string := "SELECT COUNT(c.idcliente) FROM public.\"CLIENTES\" c"

  /** `count_query`'s two layouts: never a LIMIT or OFFSET, so the only
      possible parameter is the supplier name. */
  function CountingQuery(reportType: string, f: Option<string>): (q: Query)
    requires reportType == "base_clientes" || reportType == "rateio"
    ensures Binds(q)
    ensures q.params == SupplierParams(f)
  {
    assert SupplierParams(f) + PagingParams(None, 0) == SupplierParams(f);
    if reportType == "base_clientes" then FixedQuery(ViewCount, [], Cond(ViewSupplierText, Supplier), "", f, None, 0)
    else FixedQuery(RateioCount, [LiveOriginCond], SupplierCond(), "", f, None, 0)
  }

  /** `count_query`: the same type check and supplier filter as
      `build_query`. */
  method CountQuery(reportType: string, f: Option<string>) returns (r: Outcome<Query>)
    ensures r.Raised? <==> reportType != "base_clientes" && reportType != "rateio"
    ensures r.Raised? ==> r.kind == "ValueError"
    ensures r.Done? ==> r.value == CountingQuery(reportType, f)
  {
    var q: Query;
    if reportType == "base_clientes" {
      q := BuildFixed(ViewCount, [], Cond(ViewSupplierText, Supplier), "", f, None, 0);
    } else if reportType == "rateio" {
      q := BuildFixed(RateioCount, [LiveOriginCond], SupplierCond(), "", f, None, 0);
    } else {
      return Raised("ValueError");
    }
    r := Done(q);
  }

  /** The count query's parameters are the report query's without the
      paging ones. */
  lemma CountMatchesReport(reportType: string, f: Option<string>, offset: int, limit: Option<int>)
    requires reportType == "base_clientes" || reportType == "rateio"
    ensures ReportQuery(reportType, f, offset, limit).params
         == CountingQuery(reportType, f).params + PagingParams(limit, offset)
  {
  }

  /** The report query has a LIMIT placeholder exactly when a limit is
      given and an OFFSET placeholder exactly when the offset is positive. */
  lemma ReportPaging(reportType: string, f: Option<string>, offset: int, limit: Option<int>)
    requires reportType == "base_clientes" || reportType == "rateio"
    ensures Limit in Directives(ReportQuery(reportType, f, offset, limit).pieces).value <==> limit.Some?
    ensures Offset in Directives(ReportQuery(reportType, f, offset, limit).pieces).value <==> offset > 0
  {
    SupplierPaging(ReportQuery(reportType, f, offset, limit), f, limit, offset);
  }

  /** The count query has neither paging placeholder. */
  lemma CountingUnpaged(reportType: string, f: Option<string>)
    requires reportType == "base_clientes" || reportType == "rateio"
    ensures Limit !in Directives(CountingQuery(reportType, f).pieces).value
    ensures Offset !in Directives(CountingQuery(reportType, f).pieces).value
  {
    assert SupplierParams(f) + PagingParams(None, 0) == SupplierParams(f);
    SupplierPaging(CountingQuery(reportType, f), f, None, 0);
  }

  /** A supplier-filtered query with paging has a LIMIT placeholder exactly
      when a limit is given and an OFFSET one exactly when the offset is
      positive. */
  lemma SupplierPaging(q: Query, f: Option<string>, limit: Option<int>, offset: int)
    requires Binds(q) && q.params == SupplierParams(f) + PagingParams(limit, offset)
    ensures Limit in Directives(q.pieces).value <==> limit.Some?
    ensures Offset in Directives(q.pieces).value <==> offset > 0
  {
    SupplierParamsRoles(f);
    PagingPlaceholders(q, SupplierParams(f), limit, offset);
  }
}
