// The older query layer of the blueprint package (backend/database.py):
// its own copies of the paginated report and count queries, the by-ID
// detail fetch and the header resolution. Its month KPIs, summaries and
// monthly fold repeat backend/db/dashboard.py line for line and are the
// Dashboard members; its supplier list is ReportUtils.SupplierNames.
module LegacyBackend {
  import opened Common
  import opened SqlText
  import ReportsBase
  import ReportUtils

  // ------------------------------------------------------------ field lists

  /** The shortened Base Clientes list (16 columns). */
  const BaseClientesFields: seq<Field> := [
    Col("c.idcliente"), Col("c.nome"), Col("c.numinstalacao"), Col("c.celular"), Col("c.cidade"),
    As("CASE WHEN c.concessionaria IS NULL OR c.concessionaria = '' THEN c.uf ELSE (c.uf || '-' || c.concessionaria) END", "regiao"),
    As("TO_CHAR(c.data_ativo, 'DD/MM/YYYY')", "data_ativo"),
    As("(COALESCE(c.qtdeassinatura, 0)::text || '/4')", "qtdeassinatura"), Col("c.consumomedio"),
    Col("c.status"), As("TO_CHAR(c.dtcad, 'DD/MM/YYYY')", "dtcad"), Col("c.\"cpf/cnpj\""),
    Col("c.numcliente"), Col("c.email"), As("co.nome", "consultor_nome"), Col("c.fornecedora")
  ]

  /** The shortened Rateio Geral list (14 columns). */
  const RateioFields: seq<Field> := [
    Col("c.idcliente"), Col("c.nome"), Col("c.numinstalacao"), Col("c.celular"), Col("c.cidade"),
    As("CASE WHEN c.concessionaria IS NULL OR c.concessionaria = '' THEN c.uf ELSE (c.uf || '-' || c.concessionaria) END", "regiao"),
    As("TO_CHAR(c.data_ativo, 'DD/MM/YYYY')", "data_ativo"), Col("c.consumomedio"),
    As("TO_CHAR(c.dtcad, 'DD/MM/YYYY')", "dtcad"), Col("c.\"cpf/cnpj\""), Col("c.numcliente"),
    Col("c.email"), As("co.nome", "consultor_nome"), Col("c.fornecedora")
  ]

  /** `_get_query_fields`: the type is compared in lower case; any other
      type has no fields. */
  function QueryFields(reportType: string): (r: seq<Field>)
    ensures Lower(reportType) == "base_clientes" ==> r == BaseClientesFields && |r| == 16
    ensures Lower(reportType) == "rateio" ==> r == RateioFields && |r| == 14
    ensures |r| > 0 <==> Lower(reportType) == "base_clientes" || Lower(reportType) == "rateio"
  {
    var t := Lower(reportType);
    if t == "base_clientes" then BaseClientesFields
    else if t == "rateio" then RateioFields
    else []
  }

  /** Both shortened lists read the consultant's name, so both queries
      join the consultant table. */
  lemma ShortListsJoinConsultor()
    ensures NeedsConsultorJoin(BaseClientesFields) && NeedsConsultorJoin(RateioFields)
  {
    assert StartsWith(FieldText(BaseClientesFields[14]), "co.");
    assert StartsWith(FieldText(RateioFields[12]), "co.");
  }

  /** The shortened Rateio list keeps 14 of the 44 live columns, in the
      live order: the first twelve, the consultant's name and the
      supplier. */
  lemma RateioIsLiveSelection()
    ensures RateioFields == ReportsBase.RateioFields[..12] + [ReportsBase.RateioFields[15], ReportsBase.RateioFields[35]]
  {
  }

  // ------------------------------------------------------------ report and count queries

  const ClientesFrom: string := " FROM public.\"CLIENTES\" c"
  const IdOrder: string := " ORDER BY c.idcliente"

  /** The select, from and join text of a field list. */
  function SelectHead(fields: seq<Field>): (r: string)
  {
    "SELECT " + SelectList(fields) + ClientesFrom + JoinFor(fields)
  }

  /** `build_query`'s query: both types read `CLIENTES` with the live origin
      whitelist. */
  function ReportQuery(reportType: string, f: Option<string>, offset: int, limit: Option<int>): (q: Query)
    requires reportType == "base_clientes" || reportType == "rateio"
    ensures Binds(q)
    ensures q.params == SupplierParams(f) + PagingParams(limit, offset)
  {
    FixedQuery(SelectHead(QueryFields(reportType)), [LiveOriginCond], SupplierCond(), IdOrder, f, limit, offset)
  }

  /** `build_query`: exactly "base_clientes" or "rateio" (case-sensitive),
      else ValueError; the field list is then never empty, so its own
      ValueError cannot fire. */
  method BuildQuery(reportType: string, f: Option<string>, offset: int, limit: Option<int>) returns (r: Outcome<Query>)
    ensures r.Raised? <==> reportType != "base_clientes" && reportType != "rateio"
    ensures r.Raised? ==> r.kind == "ValueError"
    ensures r.Done? ==> r.value == ReportQuery(reportType, f, offset, limit)
  {
    if reportType != "base_clientes" && reportType != "rateio" {
      return Raised("ValueError");
    }
    var fields := QueryFields(reportType);
    if |fields| == 0 {
      assert false;
      return Raised("ValueError");
    }
    var head := SelectHead(fields);
    var q := BuildFixed(head, [LiveOriginCond], SupplierCond(), IdOrder, f, limit, offset);
    r := Done(q);
  }

  /** `count_query`'s query, the same for both types. */
  function CountingQuery(f: Option<string>): (q: Query)
    ensures Binds(q)
    ensures q.params == SupplierParams(f)
  {
    assert SupplierParams(f) + PagingParams(None, 0) == SupplierParams(f);
    FixedQuery(ReportsBase.RateioCount, [LiveOriginCond], SupplierCond(), "", f, None, 0)
  }

  /** `count_query`: the same type check and supplier filter as
      `build_query`. */
  method CountQuery(reportType: string, f: Option<string>) returns (r: Outcome<Query>)
    ensures r.Raised? <==> reportType != "base_clientes" && reportType != "rateio"
    ensures r.Raised? ==> r.kind == "ValueError"
    ensures r.Done? ==> r.value == CountingQuery(f)
  {
    if reportType != "base_clientes" && reportType != "rateio" {
      return Raised("ValueError");
    }
    var q := BuildFixed(ReportsBase.RateioCount, [LiveOriginCond], SupplierCond(), "", f, None, 0);
    r := Done(q);
  }

  /** Against the live copy: the count query is the live Rateio count for
      both types (the live Base Clientes count reads the customer view
      instead), and the report query has the same parameters as the live
      one. */
  lemma AgreesWithLive(reportType: string, f: Option<string>, offset: int, limit: Option<int>)
    requires reportType == "base_clientes" || reportType == "rateio"
    ensures CountingQuery(f) == ReportsBase.CountingQuery("rateio", f)
    ensures ReportQuery(reportType, f, offset, limit).params == ReportsBase.ReportQuery(reportType, f, offset, limit).params
  {
  }

  // ------------------------------------------------------------ details by IDs

  /** The by-ID detail query of a type with a field list. */
  function DetailsText(reportType: string): (r: Option<seq<Piece>>)
    ensures r.Some? <==> Lower(reportType) == "base_clientes" || Lower(reportType) == "rateio"
    ensures r.Some? ==> Directives(r.value) == Some([IdList])
  {
    var fields := QueryFields(reportType);
    if |fields| == 0 then None else Some(IdsQueryText(fields, LiveOrigins))
  }

  /** `get_client_details_by_ids`: no IDs or an unknown type give [];
      otherwise the rows of the consecutive batches of at most `batchSize`
      IDs, concatenated in batch order. */
  method ClientDetailsByIds(db: Query -> seq<Row>, reportType: string, ids: seq<int>, batchSize: int)
    returns (details: seq<Row>)
    ensures |ids| == 0 || DetailsText(reportType).None? || batchSize <= 0 ==> details == []
    ensures |ids| > 0 && DetailsText(reportType).Some? && batchSize > 0 ==>
              details == FetchAll(db, DetailsText(reportType).value, Batches(ids, batchSize))
  {
    if |ids| == 0 {
      return [];
    }
    var fields := QueryFields(reportType);
    if |fields| == 0 {
      return [];
    }
    details := FetchInBatches(db, IdsQueryText(fields, LiveOrigins), ids, batchSize);
  }

  // ------------------------------------------------------------ headers

  /** `header_map.get(base_key, key.replace('_', ' ').title())` after a
      failed exact lookup: the base column is the text after the last '.',
      quotes kept, and the fallback title-cases the whole key. */
  function ResolveHeader(m: map<string, string>, key: string): (h: string)
    ensures ReportUtils.Found(m, key) ==> h == m[key]
    ensures !ReportUtils.Found(m, key) && LastField(key, ".") in m ==> h == m[LastField(key, ".")]
    ensures !ReportUtils.Found(m, key) && LastField(key, ".") !in m ==> h == Title(ReplaceChar(key, '_', ' '))
  {
    if ReportUtils.Found(m, key) then m[key]
    else if LastField(key, ".") in m then m[LastField(key, ".")]
    else Title(ReplaceChar(key, '_', ' '))
  }

  const HeaderMap: map<string, string> := map[
    "c.fornecedora" := "Fornecedora", "rcb.idrcb" := "Idrcb", "codigo_cliente" := "Codigo Cliente",
    "cliente_nome" := "Cliente", "rcb.numinstalacao" := "Instalacao", "rcb.valorseria" := "Quanto Seria",
    "rcb.valorapagar" := "Valor A Pagar", "rcb.valorcomcashback" := "Valor Com Cashback",
    "data_referencia" := "Data Referencia", "data_vencimento" := "Data Vencimento",
    "data_pagamento" := "Data Pagamento", "data_vencimento_original" := "Data Vencimento Original",
    "status_financeiro_cliente" := "Status Financeiro Cliente", "id_licenciado" := "Id Licenciado",
    "nome_licenciado" := "Licenciado", "celular_licenciado" := "Celular Licenciado",
    "status_calculado" := "Status", "rcb.urldemonstrativo" := "Url Demonstrativo",
    "rcb.urlboleto" := "Url Boleto", "rcb.qrcode" := "Qrcode Pix",
    "rcb.urlcontacemig" := "Url Boleto Distribuidora", "valor_distribuidora" := "Valor Distribuidora",
    "rcb.codigobarra" := "Codigo Barra Boleto", "fornecedora_cliente" := "Fornecedora",
    "c.concessionaria" := "Concessionaria", "cpf_cnpj_cliente" := "Cpf",
    "rcb.nrodocumento" := "Numero Documento", "rcb.idcomerc" := "Idcomerc",
    "rcb.idbomfuturo" := "Idbomfuturo", "rcb.energiainjetada" := "Energia Injetada",
    "rcb.energiacompensada" := "Energia Compensada", "rcb.energiaacumulada" := "Energia Acumulada",
    "rcb.energiaajuste" := "Energia Ajuste", "rcb.energiafaturamento" := "Energia Faturamento",
    "qtd_rcb_cliente" := "Qt de Rcb"
  ]

  const KeysOrder: map<string, seq<string>> := map[
    "base_clientes" := [
      "c.idcliente", "c.nome", "c.numinstalacao", "c.celular", "c.cidade", "regiao", "data_ativo",
      "qtdeassinatura", "c.consumomedio", "c.status", "dtcad", "c.\"cpf/cnpj\"", "c.numcliente",
      "dtultalteracao", "c.celular_2", "c.email", "c.rg", "c.emissor", "datainjecao", "c.idconsultor",
      "consultor_nome", "consultor_celular", "c.cep", "c.endereco", "c.numero", "c.bairro", "c.complemento",
      "c.cnpj", "c.razao", "c.fantasia", "c.ufconsumo", "c.classificacao", "c.keycontrato", "c.keysigner",
      "c.leadidsolatio", "c.indcli", "c.enviadocomerc", "c.obs", "c.posvenda", "c.retido",
      "c.contrato_verificado", "c.rateio", "c.validadosucesso", "status_sucesso", "c.documentos_enviados",
      "c.link_documento", "c.caminhoarquivo", "c.caminhoarquivocnpj", "c.caminhoarquivodoc1",
      "c.caminhoarquivodoc2", "c.caminhoarquivoenergia2", "c.caminhocontratosocial", "c.caminhocomprovante",
      "c.caminhoarquivoestatutoconvencao", "c.senhapdf", "c.codigo", "c.elegibilidade", "c.idplanopj",
      "dtcancelado", "data_ativo_original", "c.fornecedora", "c.desconto_cliente", "dtnasc", "c.origem",
      "c.cm_tipo_pagamento", "c.status_financeiro", "c.logindistribuidora", "c.senhadistribuidora",
      "c.nacionalidade", "c.profissao", "c.estadocivil", "c.obs_compartilhada", "c.linkassinatura1"
    ],
    "rateio" := [
      "c.idcliente", "c.nome", "c.numinstalacao", "c.celular", "c.cidade", "regiao", "data_ativo",
      "c.consumomedio", "dtcad", "c.\"cpf/cnpj\"", "c.numcliente", "c.email", "c.rg", "c.emissor", "c.cep",
      "consultor_nome", "c.endereco", "c.numero", "c.bairro", "c.complemento", "c.cnpj", "c.razao",
      "c.fantasia", "c.ufconsumo", "c.classificacao", "c.link_documento", "c.caminhoarquivo",
      "c.caminhoarquivocnpj", "c.caminhoarquivodoc1", "c.caminhoarquivodoc2", "c.caminhoarquivoenergia2",
      "c.caminhocontratosocial", "c.caminhocomprovante", "c.caminhoarquivoestatutoconvencao", "c.senhapdf",
      "c.fornecedora", "c.desconto_cliente", "dtnasc", "c.logindistribuidora", "c.senhadistribuidora",
      "nome_cliente_rateio", "c.nacionalidade", "c.profissao", "c.estadocivil"
    ],
    "rateio_rzk" := [
      "c.idcliente", "c.nome", "c.numinstalacao", "c.celular", "c.cidade", "regiao", "data_ativo",
      "c.consumomedio", "devolutiva", "dtcad", "c.\"cpf/cnpj\"", "c.numcliente", "c.email", "c.rg",
      "c.emissor", "licenciado", "c.cep", "c.endereco", "c.numero", "c.bairro", "c.complemento", "c.cnpj",
      "c.razao", "c.fantasia", "c.ufconsumo", "c.classificacao", "chave_contrato", "c.link_documento",
      "c.caminhoarquivo", "c.caminhoarquivocnpj", "c.caminhoarquivodoc1", "c.caminhoarquivodoc2",
      "c.caminhoarquivoenergia2", "c.caminhocontratosocial", "c.caminhocomprovante",
      "c.caminhoarquivoestatutoconvencao", "c.senhapdf", "c.fornecedora", "c.desconto_cliente", "dtnasc",
      "c.logindistribuidora", "c.senhadistribuidora", "nome_cliente_rateio", "c.nacionalidade",
      "c.profissao", "c.estadocivil"
    ],
    "clientes_por_licenciado" := [
      "c.idconsultor", "c.nome", "c.cpf", "c.email", "c.uf", "quantidade_clientes_ativos"
    ],
    "boletos_por_cliente" := [
      "c.idcliente", "c.nome", "c.numinstalacao", "c.celular", "c.cidade", "regiao", "c.fornecedora",
      "data_ativo", "dias_ativo", "quantidade_registros_rcb"
    ],
    "recebiveis_clientes" := [
      "rcb.idrcb", "codigo_cliente", "cliente_nome", "rcb.numinstalacao", "rcb.valorseria",
      "rcb.valorapagar", "rcb.valorcomcashback", "data_referencia", "data_vencimento", "data_pagamento",
      "data_vencimento_original", "c.celular", "c.email", "status_financeiro_cliente", "c.numcliente",
      "id_licenciado", "nome_licenciado", "celular_licenciado", "status_calculado", "rcb.urldemonstrativo",
      "rcb.urlboleto", "rcb.qrcode", "rcb.urlcontacemig", "valor_distribuidora", "rcb.codigobarra",
      "c.ufconsumo", "fornecedora_cliente", "c.concessionaria", "c.cnpj", "cpf_cnpj_cliente",
      "rcb.nrodocumento", "rcb.idcomerc", "rcb.idbomfuturo", "rcb.energiainjetada", "rcb.energiacompensada",
      "rcb.energiaacumulada", "rcb.energiaajuste", "rcb.energiafaturamento", "c.desconto_cliente",
      "qtd_rcb_cliente"
    ]
  ]

  function ReportKeys(reportType: string): (keys: seq<string>)
    ensures Lower(reportType) in KeysOrder ==> keys == KeysOrder[Lower(reportType)]
    ensures Lower(reportType) !in KeysOrder ==> keys == []
  {
    if Lower(reportType) in KeysOrder then KeysOrder[Lower(reportType)] else []
  }

  function HeadersFor(m: map<string, string>, keys: seq<string>): (hs: seq<string>)
    ensures |hs| == |keys|
    ensures forall i :: 0 <= i < |hs| ==> hs[i] == ResolveHeader(m, keys[i])
  {
    seq(|keys|, i requires 0 <= i < |keys| => ResolveHeader(m, keys[i]))
  }

  /** `get_headers`: one header per key of the (lower-cased) type, [] for
      a type without keys. */
  function Headers(reportType: string): (hs: seq<string>)
    ensures |hs| == |ReportKeys(reportType)|
    ensures forall i :: 0 <= i < |hs| ==> hs[i] == ResolveHeader(HeaderMap, ReportKeys(reportType)[i])
  {
    HeadersFor(HeaderMap, ReportKeys(reportType))
  }

  lemma HeadersForSnoc(m: map<string, string>, keys: seq<string>, i: nat)
    requires i < |keys|
    ensures HeadersFor(m, keys[..i + 1]) == HeadersFor(m, keys[..i]) + [ResolveHeader(m, keys[i])]
  {
    assert keys[..i + 1] == keys[..i] + [keys[i]];
  }

  method ResolveAll(m: map<string, string>, keys: seq<string>) returns (headers: seq<string>)
    ensures headers == HeadersFor(m, keys)
  {
    headers := [];
    var i := 0;
    while i < |keys|
      invariant 0 <= i <= |keys|
      invariant headers == HeadersFor(m, keys[..i])
    {
      var key := keys[i];
      var header := if key in m then m[key] else "";
      if header == "" {
        var base := LastField(key, ".");
        header := if base in m then m[base] else Title(ReplaceChar(key, '_', ' '));
      }
      HeadersForSnoc(m, keys, i);
      headers := headers + [header];
      i := i + 1;
    }
    assert keys[..i] == keys;
  }

  /** `get_headers`, proved against Headers. */
  method GetHeaders(reportType: string) returns (headers: seq<string>)
    ensures headers == Headers(reportType)
  {
    var keys := ReportKeys(reportType);
    if |keys| == 0 {
      return [];
    }
    headers := ResolveAll(HeaderMap, keys);
  }

  /** The type is matched in any case. */
  lemma HeadersIgnoreCase(reportType: string)
    ensures Headers(reportType) == Headers(Lower(reportType))
  {
    LowerIdempotent(reportType);
  }

  /** Six report types have keys. */
  lemma KnownTypes()
    ensures KeysOrder.Keys == {"base_clientes", "rateio", "rateio_rzk", "clientes_por_licenciado",
                               "boletos_por_cliente", "recebiveis_clientes"}
  {
  }

  /** The header list of a type is as long as its key list, so the Base
      Clientes headers (73) do not line up with the 16 columns its
      shortened query returns. */
  lemma BaseClientesMismatch()
    ensures |Headers("base_clientes")| == 73 && |QueryFields("base_clientes")| == 16
  {
    assert Lower("base_clientes") == "base_clientes";
    assert |KeysOrder["base_clientes"]| == 73;
  }

  /** The Rateio keys are the live ones, and for a key the table maps both
      copies give the table's header. */
  lemma SharesLiveKeys(m: map<string, string>, key: string)
    requires ReportUtils.Found(m, key)
    ensures KeysOrder["rateio"] == ReportUtils.KeysOrder["rateio"]
    ensures ResolveHeader(m, key) == ReportUtils.ResolveHeader(m, key)
  {
  }
}
