// The query layer of the older single-file app (database.py): its copies
// of the report field lists, the paginated report and count queries, the
// by-ID detail fetch and the header resolution. Unlike the blueprint
// package it admits only the origins NULL, '', 'WEB' and 'BACKOFFICE'.
module LegacyRoot {
  import opened Common
  import opened SqlText
  import ReportsBase
  import ReportUtils
  import LegacyBackend

  // ------------------------------------------------------------ field lists

  /** The full Base Clientes list (73 columns), written in three parts:
      up to the consultant's ID, the consultant's columns, and the rest. */
  const BaseClientesFields: seq<Field> := ClientColumns + ConsultorColumns + LaterColumns

  const ClientColumns: seq<Field> := [
    Col("c.idcliente"), Col("c.nome"), Col("c.numinstalacao"), Col("c.celular"), Col("c.cidade"),
    As("CASE WHEN c.concessionaria IS NULL OR c.concessionaria = '' THEN c.uf ELSE (c.uf || '-' || c.concessionaria) END", "regiao"),
    As("TO_CHAR(c.data_ativo, 'DD/MM/YYYY')", "data_ativo"),
    As("(COALESCE(c.qtdeassinatura, 0)::text || '/4')", "qtdeassinatura"), Col("c.consumomedio"),
    Col("c.status"), As("TO_CHAR(c.dtcad, 'DD/MM/YYYY')", "dtcad"), Col("c.\"cpf/cnpj\""),
    Col("c.numcliente"), As("TO_CHAR(c.dtultalteracao, 'DD/MM/YYYY')", "dtultalteracao"), Col("c.celular_2"),
    Col("c.email"), Col("c.rg"), Col("c.emissor"), As("TO_CHAR(c.datainjecao, 'DD/MM/YYYY')", "datainjecao"),
    Col("c.idconsultor")
  ]

  /** The consultant's name and phone, read from the joined table. */
  const ConsultorColumns: seq<Field> := [As("co.nome", "consultor_nome"), As("co.celular", "consultor_celular")]

  const LaterColumns: seq<Field> := [
    Col("c.cep"), Col("c.endereco"),
    Col("c.numero"), Col("c.bairro"), Col("c.complemento"), Col("c.cnpj"), Col("c.razao"), Col("c.fantasia"),
    Col("c.ufconsumo"), Col("c.classificacao"), Col("c.keycontrato"), Col("c.keysigner"),
    Col("c.leadidsolatio"), Col("c.indcli"), Col("c.enviadocomerc"), Col("c.obs"), Col("c.posvenda"),
    Col("c.retido"), Col("c.contrato_verificado"), Col("c.rateio"), Col("c.validadosucesso"),
    As("CASE WHEN c.validadosucesso = 'S' THEN 'Aprovado' ELSE 'Rejeitado' END", "status_sucesso"),
    Col("c.documentos_enviados"), Col("c.link_documento"), Col("c.caminhoarquivo"),
    Col("c.caminhoarquivocnpj"), Col("c.caminhoarquivodoc1"), Col("c.caminhoarquivodoc2"),
    Col("c.caminhoarquivoenergia2"), Col("c.caminhocontratosocial"), Col("c.caminhocomprovante"),
    Col("c.caminhoarquivoestatutoconvencao"), Col("c.senhapdf"), Col("c.codigo"), Col("c.elegibilidade"),
    Col("c.idplanopj"), As("TO_CHAR(c.dtcancelado, 'DD/MM/YYYY')", "dtcancelado"),
    As("TO_CHAR(c.data_ativo_original, 'DD/MM/YYYY')", "data_ativo_original"), Col("c.fornecedora"),
    Col("c.desconto_cliente"), As("TO_CHAR(c.dtnasc, 'DD/MM/YYYY')", "dtnasc"), Col("c.origem"),
    Col("c.cm_tipo_pagamento"), Col("c.status_financeiro"), Col("c.logindistribuidora"),
    Col("c.senhadistribuidora"), Col("c.nacionalidade"), Col("c.profissao"), Col("c.estadocivil"),
    Col("c.obs_compartilhada"), Col("c.linkassinatura1")
  ]

  /** `_get_query_fields`: the type is compared in lower case; the Rateio
      Geral list is the live one, column for column. */
  function QueryFields(reportType: string): (r: seq<Field>)
    ensures Lower(reportType) == "base_clientes" ==> r == BaseClientesFields && |r| == 73
    ensures Lower(reportType) == "rateio" ==> r == ReportsBase.RateioFields && |r| == 44
    ensures |r| > 0 <==> Lower(reportType) == "base_clientes" || Lower(reportType) == "rateio"
  {
    var t := Lower(reportType);
    if t == "base_clientes" then BaseClientesFields
    else if t == "rateio" then ReportsBase.RateioFields
    else []
  }

  /** The two types `build_query` accepts both have fields, so its second
      ValueError is never raised. */
  lemma KnownTypesHaveFields(reportType: string)
    requires reportType == "base_clientes" || reportType == "rateio"
    ensures |QueryFields(reportType)| > 0
  {
    assert Lower(reportType) == reportType;
  }

  /** The field lookup ignores case. */
  lemma QueryFieldsIgnoreCase(reportType: string)
    ensures QueryFields(reportType) == QueryFields(Lower(reportType))
  {
    LowerIdempotent(reportType);
  }

  /** The Base Clientes list reads the consultant's name, so its queries
      join the consultant table. */
  lemma BaseClientesJoinsConsultor()
    ensures NeedsConsultorJoin(BaseClientesFields)
  {
    assert StartsWith(FieldText(ConsultorColumns[0]), "co.");
    JoinOfPart(ClientColumns, ConsultorColumns, LaterColumns);
  }

  lemma JoinOfPart(a: seq<Field>, b: seq<Field>, c: seq<Field>)
    requires NeedsConsultorJoin(b)
    ensures NeedsConsultorJoin(a + b + c)
  {
    var i :| 0 <= i < |b| && StartsWith(FieldText(b[i]), "co.");
    assert (a + b + c)[|a| + i] == b[i];
  }

  // ------------------------------------------------------------ report and count queries

  /** `build_query`'s query, with the narrower origin whitelist. */
  function ReportQuery(reportType: string, f: Option<string>, offset: int, limit: Option<int>): (q: Query)
    requires reportType == "base_clientes" || reportType == "rateio"
    ensures Binds(q)
    ensures q.params == SupplierParams(f) + PagingParams(limit, offset)
  {
    FixedQuery(LegacyBackend.SelectHead(QueryFields(reportType)), [LegacyOriginCond], SupplierCond(),
               LegacyBackend.IdOrder, f, limit, offset)
  }

  /** `build_query`: exactly "base_clientes" or "rateio" (case-sensitive),
      else ValueError. */
  method BuildQuery(reportType: string, f: Option<string>, offset: int, limit: Option<int>) returns (r: Outcome<Query>)
    ensures r.Raised? <==> reportType != "base_clientes" && reportType != "rateio"
    ensures r.Raised? ==> r.kind == "ValueError"
    ensures r.Done? ==> r.value == ReportQuery(reportType, f, offset, limit)
  {
    if reportType != "base_clientes" && reportType != "rateio" {
      return Raised("ValueError");
    }
    KnownTypesHaveFields(reportType);
    var fields := QueryFields(reportType);
    if |fields| == 0 {
      assert false;
      return Raised("ValueError");
    }
    var head := LegacyBackend.SelectHead(fields);
    var q := BuildFixed(head, [LegacyOriginCond], SupplierCond(), LegacyBackend.IdOrder, f, limit, offset);
    r := Done(q);
  }

  /** `count_query`'s query, the same for both types. */
  function CountingQuery(f: Option<string>): (q: Query)
    ensures Binds(q)
    ensures q.params == SupplierParams(f)
  {
    assert SupplierParams(f) + PagingParams(None, 0) == SupplierParams(f);
    FixedQuery(ReportsBase.RateioCount, [LegacyOriginCond], SupplierCond(), "", f, None, 0)
  }

  /** `count_query`: the same type check and supplier filter as
      `build_query`. */
  method CountQuery(reportType: string, f: Option<string>) returns (r: Outcome<Query>)
    ensures r.Raised? <==> reportType != "base_clientes" && reportType != "rateio"
    ensures r.Raised? ==> r.kind == "ValueError"
    ensures r.Done? ==> r.value == CountingQuery(f)
  {
    if reportType != "base_clientes" && reportType != "rateio" {
      return Raised("ValueError");
    }
    var q := BuildFixed(ReportsBase.RateioCount, [LegacyOriginCond], SupplierCond(), "", f, None, 0);
    r := Done(q);
  }

  /** Against the blueprint copies: the same parameters in the same
      order. */
  lemma AgreesWithBackend(reportType: string, f: Option<string>, offset: int, limit: Option<int>)
    requires reportType == "base_clientes" || reportType == "rateio"
    ensures ReportQuery(reportType, f, offset, limit).params == LegacyBackend.ReportQuery(reportType, f, offset, limit).params
    ensures CountingQuery(f).params == LegacyBackend.CountingQuery(f).params
  {
  }

  /** The count statements still differ: in the whitelist, which is
      strictly narrower here. */
  lemma CountWhitelistDiffers(f: Option<string>)
    ensures CountingQuery(f) != LegacyBackend.CountingQuery(f)
  {
    var a := CountingQuery(f).pieces;
    var b := LegacyBackend.CountingQuery(f).pieces;
    assert a[1] == Lit(" WHERE ");
    assert a[2] == Lit(LegacyOriginCond);
    assert b[2] == Lit(LiveOriginCond);
    assert |LegacyOriginCond| != |LiveOriginCond|;
  }

  // ------------------------------------------------------------ details by IDs

  function DetailsText(reportType: string): (r: Option<seq<Piece>>)
    ensures r.Some? <==> Lower(reportType) == "base_clientes" || Lower(reportType) == "rateio"
    ensures r.Some? ==> Directives(r.value) == Some([IdList])
  {
    var fields := QueryFields(reportType);
    if |fields| == 0 then None else Some(IdsQueryText(fields, LegacyOrigins))
  }

  /** `get_client_details_by_ids`: no IDs or an unknown type give [];
      otherwise the rows of the consecutive batches of at most `batchSize`
      IDs, concatenated in batch order. */
  method ClientDetailsByIds(db: Query -> seq<Row>, reportType: string, ids: seq<int>, batchSize: int)
    returns (details: seq<Row>)
    ensures |ids| == 0 || DetailsText(reportType).None? || batchSize <= 0 ==> details == []
    ensures |ids| > 0 && DetailsText(reportType).Some? && batchSize > 0 ==>
              details == FetchAll(db, DetailsText(reportType).value, Batches(ids, batchSize))
  {
    if |ids| == 0 {
      return [];
    }
    var fields := QueryFields(reportType);
    if |fields| == 0 {
      return [];
    }
    details := FetchInBatches(db, IdsQueryText(fields, LegacyOrigins), ids, batchSize);
  }

  // ------------------------------------------------------------ headers

  /** The fallback header: the text after the last '.' when the key has
      one, else the whole key, with '_' as a blank, title-cased. */
  function Fallback(key: string): (h: string)
    ensures |h| <= |key|
  {
    if '.' in key then Title(ReplaceChar(LastField(key, "."), '_', ' ')) else Title(ReplaceChar(key, '_', ' '))
  }

  /** Both branches of the fallback are one rule: title-case the last
      dotted segment; the result holds no '.' and no '_'. */
  lemma FallbackIsLastSegment(key: string)
    ensures Fallback(key) == Title(ReplaceChar(LastField(key, "."), '_', ' '))
    ensures '.' !in Fallback(key) && '_' !in Fallback(key)
  {
    if '.' !in key {
      NoCharNoMatch(key, ".");
    }
    var last := LastField(key, ".");
    if '.' in last {
      var i :| 0 <= i < |last| && last[i] == '.';
      assert last[i..i + 1] == ".";
      assert OccursAt(last, ".", i);
    }
    var spaced := ReplaceChar(last, '_', ' ');
    assert '.' !in spaced && '_' !in spaced;
    ReportUtils.TitleKeepsNonLetters(spaced, '.');
    ReportUtils.TitleKeepsNonLetters(spaced, '_');
  }

  /** A separator whose first character does not occur is not found. */
  lemma NoCharNoMatch(s: string, sep: string)
    requires |sep| > 0 && sep[0] !in s
    ensures Find(s, sep).None?
  {
    forall j | 0 <= j <= |s| - |sep|
      ensures !OccursAt(s, sep, j)
    {
      assert s[j..j + |sep|][0] == s[j];
    }
  }

  /** `header_map.get(key)` if truthy, else the fallback: no second
      lookup. */
  function ResolveHeader(m: map<string, string>, key: string): (h: string)
    ensures ReportUtils.Found(m, key) ==> h == m[key]
    ensures !ReportUtils.Found(m, key) ==> h == Fallback(key)
  {
    if ReportUtils.Found(m, key) then m[key] else Fallback(key)
  }

  const HeaderMap: map<string, string> := map[
    "c.idcliente" := "Código Cliente", "c.nome" := "Nome", "c.numinstalacao" := "Instalação",
    "c.celular" := "Celular", "c.cidade" := "Cidade", "regiao" := "Região (UF-Conc)",
    "data_ativo" := "Data Ativo", "qtdeassinatura" := "Assinaturas", "c.consumomedio" := "Consumo Médio",
    "c.status" := "Status Cliente", "dtcad" := "Data Cadastro", "c.\"cpf/cnpj\"" := "CPF/CNPJ",
    "c.numcliente" := "Número Cliente", "dtultalteracao" := "Última Alteração", "c.celular_2" := "Celular 2",
    "c.email" := "Email", "c.rg" := "RG", "c.emissor" := "Emissor", "datainjecao" := "Data Injeção",
    "c.idconsultor" := "ID Consultor", "consultor_nome" := "Representante",
    "consultor_celular" := "Celular Consultor", "c.cep" := "CEP", "c.endereco" := "Endereço",
    "c.numero" := "Número", "c.bairro" := "Bairro", "c.complemento" := "Complemento",
    "c.cnpj" := "CNPJ (Empresa)", "c.razao" := "Razão Social", "c.fantasia" := "Nome Fantasia",
    "c.ufconsumo" := "UF Consumo", "c.classificacao" := "Classificação", "c.keycontrato" := "Key Contrato",
    "c.keysigner" := "Key Signer", "c.leadidsolatio" := "Lead ID Solatio", "c.indcli" := "Ind CLI",
    "c.enviadocomerc" := "Enviado Comerci", "c.obs" := "Observação", "c.posvenda" := "Pós-venda",
    "c.retido" := "Retido", "c.contrato_verificado" := "Contrato Verificado", "c.rateio" := "Rateio (S/N)",
    "c.validadosucesso" := "Validação Sucesso (S/N)", "status_sucesso" := "Status Validação",
    "c.documentos_enviados" := "Documentos Enviados", "c.link_documento" := "Link Documento",
    "c.caminhoarquivo" := "Link Conta Energia", "c.caminhoarquivocnpj" := "Link Cartão CNPJ",
    "c.caminhoarquivodoc1" := "Link Doc Ident. 1", "c.caminhoarquivodoc2" := "Link Doc Ident. 2",
    "c.caminhoarquivoenergia2" := "Link Conta Energia 2",
    "c.caminhocontratosocial" := "Link Contrato Social", "c.caminhocomprovante" := "Link Comprovante",
    "c.caminhoarquivoestatutoconvencao" := "Link Estatuto/Convenção", "c.senhapdf" := "Senha PDF",
    "c.codigo" := "Código Interno", "c.elegibilidade" := "Elegibilidade", "c.idplanopj" := "ID Plano PJ",
    "dtcancelado" := "Data Cancelamento", "data_ativo_original" := "Data Ativo Original",
    "c.fornecedora" := "Fornecedora", "c.desconto_cliente" := "Desconto Cliente", "dtnasc" := "Data Nasc.",
    "c.origem" := "Origem", "c.cm_tipo_pagamento" := "Tipo Pagamento",
    "c.status_financeiro" := "Status Financeiro", "c.logindistribuidora" := "Login Distribuidora",
    "c.senhadistribuidora" := "Senha Distribuidora", "c.nacionalidade" := "Nacionalidade",
    "c.profissao" := "Profissão", "c.estadocivil" := "Estado Civil",
    "c.obs_compartilhada" := "Observação Compartilhada", "c.linkassinatura1" := "Link Assinatura",
    "c.cpf" := "CPF Consultor", "c.uf" := "UF Consultor",
    "quantidade_clientes_ativos" := "Qtd. Clientes Ativos",
    "quantidade_registros_rcb" := "Qtd. Boletos (RCB)", "nome_cliente_rateio" := "Cliente Rateio",
    "devolutiva" := "Devolutiva", "licenciado" := "Licenciado", "chave_contrato" := "Chave Contrato"
  ]

  const BaseClientesKeys: seq<string> := [
    "c.idcliente", "c.nome", "c.numinstalacao", "c.celular", "c.cidade", "regiao", "data_ativo",
    "qtdeassinatura", "c.consumomedio", "c.status", "dtcad", "c.\"cpf/cnpj\"", "c.numcliente",
    "dtultalteracao", "c.celular_2", "c.email", "c.rg", "c.emissor", "datainjecao", "c.idconsultor",
    "consultor_nome", "consultor_celular", "c.cep", "c.endereco", "c.numero", "c.bairro", "c.complemento",
    "c.cnpj", "c.razao", "c.fantasia", "c.ufconsumo", "c.classificacao", "c.keycontrato", "c.keysigner",
    "c.leadidsolatio", "c.indcli", "c.enviadocomerc", "c.obs", "c.posvenda", "c.retido",
    "c.contrato_verificado", "c.rateio", "c.validadosucesso", "status_sucesso", "c.documentos_enviados",
    "c.link_documento", "c.caminhoarquivo", "c.caminhoarquivocnpj", "c.caminhoarquivodoc1",
    "c.caminhoarquivodoc2", "c.caminhoarquivoenergia2", "c.caminhocontratosocial", "c.caminhocomprovante",
    "c.caminhoarquivoestatutoconvencao", "c.senhapdf", "c.codigo", "c.elegibilidade", "c.idplanopj",
    "dtcancelado", "data_ativo_original", "c.fornecedora", "c.desconto_cliente", "dtnasc", "c.origem",
    "c.cm_tipo_pagamento", "c.status_financeiro", "c.logindistribuidora", "c.senhadistribuidora",
    "c.nacionalidade", "c.profissao", "c.estadocivil", "c.obs_compartilhada", "c.linkassinatura1"
  ]

  const RateioKeys: seq<string> := [
    "c.idcliente", "c.nome", "c.numinstalacao", "c.celular", "c.cidade", "regiao", "data_ativo",
    "c.consumomedio", "dtcad", "c.\"cpf/cnpj\"", "c.numcliente", "c.email", "c.rg", "c.emissor", "c.cep",
    "consultor_nome", "c.endereco", "c.numero", "c.bairro", "c.complemento", "c.cnpj", "c.razao",
    "c.fantasia", "c.ufconsumo", "c.classificacao", "c.link_documento", "c.caminhoarquivo",
    "c.caminhoarquivocnpj", "c.caminhoarquivodoc1", "c.caminhoarquivodoc2", "c.caminhoarquivoenergia2",
    "c.caminhocontratosocial", "c.caminhocomprovante", "c.caminhoarquivoestatutoconvencao", "c.senhapdf",
    "c.fornecedora", "c.desconto_cliente", "dtnasc", "c.logindistribuidora", "c.senhadistribuidora",
    "nome_cliente_rateio", "c.nacionalidade", "c.profissao", "c.estadocivil"
  ]

  const RzkKeys: seq<string> := [
    "c.idcliente", "c.nome", "c.numinstalacao", "c.celular", "c.cidade", "regiao", "data_ativo",
    "c.consumomedio", "devolutiva", "dtcad", "c.\"cpf/cnpj\"", "c.numcliente", "c.email", "c.rg",
    "c.emissor", "licenciado", "c.cep", "c.endereco", "c.numero", "c.bairro", "c.complemento", "c.cnpj",
    "c.razao", "c.fantasia", "c.ufconsumo", "c.classificacao", "chave_contrato", "c.link_documento",
    "c.caminhoarquivo", "c.caminhoarquivocnpj", "c.caminhoarquivodoc1", "c.caminhoarquivodoc2",
    "c.caminhoarquivoenergia2", "c.caminhocontratosocial", "c.caminhocomprovante",
    "c.caminhoarquivoestatutoconvencao", "c.senhapdf", "c.fornecedora", "c.desconto_cliente", "dtnasc",
    "c.logindistribuidora", "c.senhadistribuidora", "nome_cliente_rateio", "c.nacionalidade", "c.profissao",
    "c.estadocivil"
  ]

  const LicenciadoKeys: seq<string> := [
    "c.idconsultor", "c.nome", "c.cpf", "c.email", "c.uf", "quantidade_clientes_ativos"
  ]

  const BoletosKeys: seq<string> := [
    "c.idcliente", "c.nome", "c.numinstalacao", "c.celular", "c.cidade", "regiao", "c.fornecedora",
    "data_ativo", "quantidade_registros_rcb"
  ]

  /** The key list chosen by the lower-cased type; None for any other
      type (which returns [] at once). */
  function ReportKeys(reportType: string): (keys: Option<seq<string>>)
    ensures keys.None? <==> Lower(reportType) !in {"base_clientes", "clientes_por_licenciado", "boletos_por_cliente", "rateio", "rateio_rzk"}
  {
    var t := Lower(reportType);
    if t == "base_clientes" then Some(BaseClientesKeys)
    else if t == "clientes_por_licenciado" then Some(LicenciadoKeys)
    else if t == "boletos_por_cliente" then Some(BoletosKeys)
    else if t == "rateio" then Some(RateioKeys)
    else if t == "rateio_rzk" then Some(RzkKeys)
    else None
  }

  function HeadersFor(m: map<string, string>, keys: seq<string>): (hs: seq<string>)
    ensures |hs| == |keys|
    ensures forall i :: 0 <= i < |hs| ==> hs[i] == ResolveHeader(m, keys[i])
  {
    seq(|keys|, i requires 0 <= i < |keys| => ResolveHeader(m, keys[i]))
  }

  /** `get_headers`: one header per key of the type's list, [] for an
      unknown type. */
  function Headers(reportType: string): (hs: seq<string>)
    ensures ReportKeys(reportType).None? ==> hs == []
    ensures ReportKeys(reportType).Some? ==> hs == HeadersFor(HeaderMap, ReportKeys(reportType).value)
  {
    match ReportKeys(reportType)
    case None => []
    case Some(keys) => HeadersFor(HeaderMap, keys)
  }

  lemma HeadersForSnoc(m: map<string, string>, keys: seq<string>, i: nat)
    requires i < |keys|
    ensures HeadersFor(m, keys[..i + 1]) == HeadersFor(m, keys[..i]) + [ResolveHeader(m, keys[i])]
  {
    assert keys[..i + 1] == keys[..i] + [keys[i]];
  }

  method ResolveAll(m: map<string, string>, keys: seq<string>) returns (headers: seq<string>)
    ensures headers == HeadersFor(m, keys)
  {
    headers := [];
    var i := 0;
    while i < |keys|
      invariant 0 <= i <= |keys|
      invariant headers == HeadersFor(m, keys[..i])
    {
      var key := keys[i];
      var friendly := if key in m then m[key] else "";
      if friendly != "" {
        headers := headers + [friendly];
      } else {
        var fallback := if '.' in key then Title(ReplaceChar(LastField(key, "."), '_', ' '))
                        else Title(ReplaceChar(key, '_', ' '));
        headers := headers + [fallback];
      }
      HeadersForSnoc(m, keys, i);
      i := i + 1;
    }
    assert keys[..i] == keys;
  }

  /** `get_headers`, proved against Headers. */
  method GetHeaders(reportType: string) returns (headers: seq<string>)
    ensures headers == Headers(reportType)
  {
    var keys := ReportKeys(reportType);
    if keys.None? {
      return [];
    }
    headers := ResolveAll(HeaderMap, keys.value);
  }

  /** The type is matched in any case. */
  lemma HeadersIgnoreCase(reportType: string)
    ensures Headers(reportType) == Headers(Lower(reportType))
  {
    LowerIdempotent(reportType);
    assert ReportKeys(reportType) == ReportKeys(Lower(reportType));
  }

  /** The Rateio keys are the live ones and the Base Clientes keys those of
      the blueprint copy; the key lists have 73, 44, 46, 6 and 9 entries. */
  lemma KeyListsShared()
    ensures RateioKeys == ReportUtils.KeysOrder["rateio"]
    ensures BaseClientesKeys == LegacyBackend.KeysOrder["base_clientes"]
    ensures |BaseClientesKeys| == 73 && |RateioKeys| == 44 && |RzkKeys| == 46
    ensures |LicenciadoKeys| == 6 && |BoletosKeys| == 9
  {
  }

  /** Where the root copy parts from the blueprint one: for an unmapped
      key with one '.', whose column is not mapped either, the root copy
      title-cases only the column after the '.', while the blueprint copy
      title-cases the whole key, prefix and all. */
  lemma FallbacksDiffer(m: map<string, string>, prefix: string, column: string)
    requires '.' !in prefix && '.' !in column
    requires !ReportUtils.Found(m, prefix + "." + column) && column !in m
    ensures ResolveHeader(m, prefix + "." + column) == Title(ReplaceChar(column, '_', ' '))
    ensures LegacyBackend.ResolveHeader(m, prefix + "." + column) == Title(ReplaceChar(prefix + "." + column, '_', ' '))
    ensures |ResolveHeader(m, prefix + "." + column)| + |prefix| + 1
         == |LegacyBackend.ResolveHeader(m, prefix + "." + column)|
  {
    var key := prefix + "." + column;
    assert OccursAt(key, ".", |prefix|);
    forall j | 0 <= j < |prefix|
      ensures !OccursAt(key, ".", j)
    {
      assert key[j] == prefix[j];
      assert key[j..j + 1][0] == key[j];
    }
    assert Find(key, ".") == Some(|prefix|);
    assert key[|prefix| + 1..] == column;
    NoCharNoMatch(column, ".");
    assert LastField(key, ".") == column;
    FallbackIsLastSegment(key);
    TitleShape(ReplaceChar(column, '_', ' '));
    TitleShape(ReplaceChar(key, '_', ' '));
  }
}
