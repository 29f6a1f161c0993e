// Report headers and the supplier list (backend/db/utils.py): each report
// type has an ordered list of column keys, and each key gets a readable
// header by lookup in a fixed table, with two fallbacks.
module ReportUtils {
  import opened Common
  import opened SqlText
  import ReportsBase

  // ------------------------------------------------------------ resolution

  /** `header_map.get(k)` followed by `if not header`: a missing key and an
      empty header both count as not found. */
  predicate Found(m: map<string, string>, k: string)
  {
    k in m && m[k] != ""
  }

  /** `key.split('.')[-1].replace('"', '')`: the column name without its
      table prefix and quotes. */
  function BaseKey(key: string): (b: string)
    ensures '"' !in b
    ensures |b| <= |key|
  {
    RemoveChar(LastField(key, "."), '"')
  }

  /** `key.split(' AS ')[-1].strip().replace('_', ' ').replace('"', '').title()`. */
  function AliasTitle(key: string): (t: string)
  {
    Title(RemoveChar(ReplaceChar(Strip(LastField(key, " AS ")), '_', ' '), '"'))
  }

  /** `title()` never introduces a character that is not a letter. */
  lemma TitleKeepsNonLetters(s: string, c: char)
    requires !IsLetter(c)
    ensures c in Title(s) <==> c in s
  {
    TitleShape(s);
    if c in s {
      var i :| 0 <= i < |s| && s[i] == c;
      assert Title(s)[i] == c;
    }
  }

  /** The title fallback holds no underscore and no double quote, does not
      start or end with a blank, and is already in title case. */
  lemma AliasTitleShape(key: string)
    ensures '_' !in AliasTitle(key) && '"' !in AliasTitle(key)
    ensures Title(AliasTitle(key)) == AliasTitle(key)
    ensures |AliasTitle(key)| <= |key|
  {
    var stripped := Strip(LastField(key, " AS "));
    var spaced := ReplaceChar(stripped, '_', ' ');
    var unquoted := RemoveChar(spaced, '"');
    assert '_' !in spaced;
    RemoveCharKeeps(spaced, '"', '_');
    TitleKeepsNonLetters(unquoted, '_');
    TitleKeepsNonLetters(unquoted, '"');
    TitleIdempotent(unquoted);
    TitleShape(unquoted);
  }

  lemma {:induction false} RemoveCharKeeps(s: string, a: char, c: char)
    requires c !in s
    ensures c !in RemoveChar(s, a)
    decreases |s|
  {
    if |s| > 0 {
      RemoveCharKeeps(s[1..], a, c);
    }
  }

  /** The header of one key: the table's entry for the key itself wins;
      failing that, the entry for its base column; failing both, the title
      made from the key's alias. */
  function ResolveHeader(m: map<string, string>, key: string): (h: string)
    ensures Found(m, key) ==> h == m[key]
    ensures !Found(m, key) && Found(m, BaseKey(key)) ==> h == m[BaseKey(key)]
    ensures !Found(m, key) && !Found(m, BaseKey(key)) ==> h == AliasTitle(key)
    ensures h != "" ==> h in m.Values || ('_' !in h && '"' !in h)
  {
    if Found(m, key) then m[key]
    else if Found(m, BaseKey(key)) then m[BaseKey(key)]
    else
      AliasTitleShape(key);
      AliasTitle(key)
  }

  // ------------------------------------------------------------ the tables

  const HeaderMap: map<string, string> := map[
    "codigo" := "Código", "nome" := "Nome", "instalacao" := "Instalação", "numero_cliente" := "Nº Cliente",
    "cpf_cnpj" := "CPF/CNPJ", "cidade" := "Cidade", "ufconsumo" := "UF",
    "concessionaria" := "Concessionaria", "fornecedora" := "Fornecedora", "data_ativo" := "Data Ativo",
    "dias_desde_ativacao" := "Dias Ativo", "validado_sucesso" := "Validado", "devolutiva" := "Devolutiva",
    "id_licenciado" := "ID Licenciado", "licenciado" := "Licenciado", "status_pro" := "Status PRO",
    "data_graduacao_pro" := "Data PRO", "quantidade_boletos" := "Qtd. Boletos", "injecao" := "Prazo Injeção",
    "atraso_na_injecao" := "Atraso na Injeção", "dias_em_atraso" := "Dias em Atraso",
    "c.idcliente" := "ID Cliente", "c.numinstalacao" := "Instalação", "c.celular" := "Celular",
    "regiao" := "Região", "qtdeassinatura" := "Assinaturas", "c.consumomedio" := "Consumo Médio",
    "consumomedio" := "Consumo Médio", "c.status" := "Status Cliente", "dtcad" := "Data Cadastro",
    "c.\"cpf/cnpj\"" := "CPF/CNPJ", "c.numcliente" := "Num Cliente", "c.email" := "Email",
    "consultor_nome" := "Licenciado", "chave_contrato" := "Chave Contrato",
    "nome_cliente_rateio" := "Nome Cliente (RZK)", "c.idconsultor" := "ID Licenciado",
    "c.nome" := "Nome Licenciado", "data_ativo_formatada" := "Data Ativo",
    "data_graduacao_formatada" := "Data Graduação", "dias_para_graduacao" := "Dias para Graduar",
    "c.cpf" := "CPF Licenciado", "c.uf" := "UF Licenciado",
    "quantidade_clientes_ativos" := "Qtd Clientes Ativos", "rcb.idrcb" := "Idrcb",
    "codigo_cliente" := "Codigo Cliente", "cliente_nome" := "Cliente", "rcb.valorseria" := "Quanto Seria",
    "rcb.valorapagar" := "Valor A Pagar", "rcb.valorcomcashback" := "Valor Com Cashback",
    "data_referencia" := "Data Referencia", "data_vencimento" := "Data Vencimento",
    "data_pagamento" := "Data Pagamento", "data_vencimento_original" := "Data Vencimento Original",
    "status_financeiro_cliente" := "Status Financeiro Cliente", "nome_licenciado" := "Licenciado",
    "celular_licenciado" := "Celular Licenciado", "status_calculado" := "Status Pagamento",
    "rcb.urldemonstrativo" := "Url Demonstrativo", "rcb.urlboleto" := "Url Boleto",
    "rcb.qrcode" := "Qrcode Pix", "rcb.urlcontacemig" := "Url Boleto Distribuidora",
    "valor_distribuidora" := "Valor Distribuidora", "rcb.codigobarra" := "Codigo Barra Boleto",
    "fornecedora_cliente" := "Fornecedora Cliente", "cpf_cnpj_cliente" := "Cpf Cliente",
    "rcb.nrodocumento" := "Numero Documento", "rcb.idcomerc" := "Idcomerc",
    "rcb.idbomfuturo" := "Idbomfuturo", "rcb.energiainjetada" := "Energia Injetada",
    "rcb.energiacompensada" := "Energia Compensada", "rcb.energiaacumulada" := "Energia Acumulada",
    "rcb.energiaajuste" := "Energia Ajuste", "rcb.energiafaturamento" := "Energia Faturamento",
    "c.desconto_cliente" := "Desconto Cliente", "qtd_rcb_cliente" := "Qt de Rcb", "c.rg" := "RG",
    "c.emissor" := "Emissor", "datainjecao" := "Data Injeção", "consultor_celular" := "Celular Licenciado",
    "c.cep" := "CEP", "c.endereco" := "Endereço", "c.numero" := "Número", "c.bairro" := "Bairro",
    "c.complemento" := "Complemento", "c.cnpj" := "CNPJ", "c.razao" := "Razão Social",
    "c.fantasia" := "Nome Fantasia", "c.classificacao" := "Classificação", "c.keycontrato" := "Key Contrato",
    "c.keysigner" := "Key Signer", "c.leadidsolatio" := "Lead ID Solatio", "c.indcli" := "Indicação Cliente",
    "c.enviadocomerc" := "Enviado Comercial", "c.obs" := "Obs", "c.posvenda" := "Pós Venda",
    "c.retido" := "Retido", "c.contrato_verificado" := "Contrato Verificado", "c.rateio" := "Rateio",
    "c.validadosucesso" := "Validado Sucesso", "status_sucesso" := "Status Sucesso",
    "retorno_fornecedora" := "Retorno Fornecedora", "c.documentos_enviados" := "Docs Enviados",
    "c.link_documento" := "Link Documento", "c.caminhoarquivo" := "Caminho Arquivo",
    "c.caminhoarquivocnpj" := "Caminho CNPJ", "c.caminhoarquivodoc1" := "Caminho Doc 1",
    "c.caminhoarquivodoc2" := "Caminho Doc 2", "c.caminhoarquivoenergia2" := "Caminho Energia 2",
    "c.caminhocontratosocial" := "Caminho CS", "c.caminhocomprovante" := "Caminho Comprovante",
    "c.caminhoarquivoestatutoconvencao" := "Caminho Estatuto", "c.senhapdf" := "Senha PDF",
    "c.codigo" := "Código", "c.elegibilidade" := "Elegibilidade", "c.idplanopj" := "ID Plano PJ",
    "dtcancelado" := "Data Cancelado", "data_ativo_original" := "Data Ativo Original",
    "dtnasc" := "Data Nascimento", "c.origem" := "Origem", "c.cm_tipo_pagamento" := "CM Tipo Pagamento",
    "c.status_financeiro" := "Status Financeiro", "c.logindistribuidora" := "Login Distribuidora",
    "c.senhadistribuidora" := "Senha Distribuidora", "c.nacionalidade" := "Nacionalidade",
    "c.profissao" := "Profissão", "c.estadocivil" := "Estado Civil",
    "c.obs_compartilhada" := "Obs Compartilhada", "c.linkassinatura1" := "Link Assinatura 1",
    "dtultalteracao" := "Dt Ult Alteracao", "c.celular_2" := "Celular 2"
  ]

  /** The Rateio Geral keys, in report order. */
  const RateioKeyOrder: seq<string> := [
    "c.idcliente", "c.nome", "c.numinstalacao", "c.celular", "c.cidade", "regiao", "data_ativo",
    "c.consumomedio", "dtcad", "c.\"cpf/cnpj\"", "c.numcliente", "c.email", "c.rg", "c.emissor", "c.cep",
    "consultor_nome", "c.endereco", "c.numero", "c.bairro", "c.complemento", "c.cnpj", "c.razao",
    "c.fantasia", "c.ufconsumo", "c.classificacao", "c.link_documento", "c.caminhoarquivo",
    "c.caminhoarquivocnpj", "c.caminhoarquivodoc1", "c.caminhoarquivodoc2", "c.caminhoarquivoenergia2",
    "c.caminhocontratosocial", "c.caminhocomprovante", "c.caminhoarquivoestatutoconvencao", "c.senhapdf",
    "c.fornecedora", "c.desconto_cliente", "dtnasc", "c.logindistribuidora", "c.senhadistribuidora",
    "nome_cliente_rateio", "c.nacionalidade", "c.profissao", "c.estadocivil"
  ]

  const KeysOrder: map<string, seq<string>> := map[
    "base_clientes" := [
      "c.idcliente", "c.nome", "c.numinstalacao", "c.celular", "c.cidade", "regiao", "data_ativo",
      "qtdeassinatura", "c.consumomedio", "c.status", "dtcad", "c.\"cpf/cnpj\"", "c.numcliente",
      "dtultalteracao", "c.celular_2", "c.email", "c.rg", "c.emissor", "datainjecao", "c.idconsultor",
      "consultor_nome", "consultor_celular", "c.cep", "c.endereco", "c.numero", "c.bairro", "c.complemento",
      "c.cnpj", "c.razao", "c.fantasia", "c.ufconsumo", "c.classificacao", "c.keycontrato", "c.keysigner",
      "c.leadidsolatio", "c.indcli", "c.enviadocomerc", "c.obs", "c.posvenda", "c.retido",
      "c.contrato_verificado", "c.rateio", "c.validadosucesso", "status_sucesso", "c.documentos_enviados",
      "c.link_documento", "c.caminhoarquivo", "c.caminhoarquivocnpj", "c.caminhoarquivodoc1",
      "c.caminhoarquivodoc2", "c.caminhoarquivoenergia2", "c.caminhocontratosocial", "c.caminhocomprovante",
      "c.caminhoarquivoestatutoconvencao", "c.senhapdf", "c.codigo", "c.elegibilidade", "c.idplanopj",
      "dtcancelado", "data_ativo_original", "c.fornecedora", "c.desconto_cliente", "dtnasc", "c.origem",
      "c.cm_tipo_pagamento", "c.status_financeiro", "c.logindistribuidora", "c.senhadistribuidora",
      "c.nacionalidade", "c.profissao", "c.estadocivil", "c.obs_compartilhada", "c.linkassinatura1"
    ],
    "rateio" := RateioKeyOrder,
    "rateio_rzk" := [
      "c.idcliente", "c.nome", "c.numinstalacao", "c.celular", "c.cidade", "regiao", "data_ativo",
      "c.consumomedio", "devolutiva", "dtcad", "c.\"cpf/cnpj\"", "c.numcliente", "c.email", "c.rg",
      "c.emissor", "licenciado", "c.cep", "c.endereco", "c.numero", "c.bairro", "c.complemento", "c.cnpj",
      "c.razao", "c.fantasia", "c.ufconsumo", "c.classificacao", "chave_contrato", "c.link_documento",
      "c.caminhoarquivo", "c.caminhoarquivocnpj", "c.caminhoarquivodoc1", "c.caminhoarquivodoc2",
      "c.caminhoarquivoenergia2", "c.caminhocontratosocial", "c.caminhocomprovante",
      "c.caminhoarquivoestatutoconvencao", "c.senhapdf", "c.fornecedora", "c.desconto_cliente", "dtnasc",
      "c.logindistribuidora", "c.senhadistribuidora", "nome_cliente_rateio", "c.nacionalidade",
      "c.profissao", "c.estadocivil"
    ],
    "clientes_por_licenciado" := [
      "c.idconsultor", "c.nome", "c.cpf", "c.email", "c.uf", "quantidade_clientes_ativos"
    ],
    "boletos_por_cliente" := [
      "codigo", "nome", "instalacao", "numero_cliente", "cpf_cnpj", "cidade", "ufconsumo", "concessionaria",
      "fornecedora", "consumomedio", "data_ativo", "dias_desde_ativacao", "injecao", "atraso_na_injecao",
      "dias_em_atraso", "validado_sucesso", "devolutiva", "retorno_fornecedora", "id_licenciado",
      "licenciado", "status_pro", "data_graduacao_pro", "quantidade_boletos"
    ],
    "recebiveis_clientes" := [
      "rcb.idrcb", "codigo_cliente", "cliente_nome", "rcb.numinstalacao", "rcb.valorseria",
      "rcb.valorapagar", "rcb.valorcomcashback", "data_referencia", "data_vencimento", "data_pagamento",
      "data_vencimento_original", "c.celular", "c.email", "status_financeiro_cliente", "c.numcliente",
      "id_licenciado", "nome_licenciado", "celular_licenciado", "status_calculado", "rcb.urldemonstrativo",
      "rcb.urlboleto", "rcb.qrcode", "rcb.urlcontacemig", "valor_distribuidora", "rcb.codigobarra",
      "c.ufconsumo", "fornecedora_cliente", "c.concessionaria", "c.cnpj", "cpf_cnpj_cliente",
      "rcb.nrodocumento", "rcb.idcomerc", "rcb.idbomfuturo", "rcb.energiainjetada", "rcb.energiacompensada",
      "rcb.energiaacumulada", "rcb.energiaajuste", "rcb.energiafaturamento", "c.desconto_cliente",
      "qtd_rcb_cliente"
    ],
    "graduacao_licenciado" := [
      "c.idconsultor", "c.nome", "data_ativo_formatada", "data_graduacao_formatada", "dias_para_graduacao"
    ]
  ]

  /** `keys_order.get(report_type.lower())`, with an unknown type giving no
      keys. */
  function ReportKeys(reportType: string): (keys: seq<string>)
    ensures Lower(reportType) in KeysOrder ==> keys == KeysOrder[Lower(reportType)]
    ensures Lower(reportType) !in KeysOrder ==> keys == []
  {
    if Lower(reportType) in KeysOrder then KeysOrder[Lower(reportType)] else []
  }

  /** One header per key, in key order. */
  function HeadersFor(m: map<string, string>, keys: seq<string>): (hs: seq<string>)
    ensures |hs| == |keys|
    ensures forall i :: 0 <= i < |hs| ==> hs[i] == ResolveHeader(m, keys[i])
  {
    seq(|keys|, i requires 0 <= i < |keys| => ResolveHeader(m, keys[i]))
  }

  /** `get_headers`: the headers of the report type's keys; [] for a type
      without keys. */
  function Headers(reportType: string): (hs: seq<string>)
    ensures |hs| == |ReportKeys(reportType)|
    ensures forall i :: 0 <= i < |hs| ==> hs[i] == ResolveHeader(HeaderMap, ReportKeys(reportType)[i])
  {
    HeadersFor(HeaderMap, ReportKeys(reportType))
  }

  /** The loop of `get_headers`: one header appended per key. */
  method ResolveAll(m: map<string, string>, keys: seq<string>) returns (headers: seq<string>)
    ensures headers == HeadersFor(m, keys)
  {
    headers := [];
    var i := 0;
    while i < |keys|
      invariant 0 <= i <= |keys|
      invariant headers == HeadersFor(m, keys[..i])
    {
      var key := keys[i];
      var header := ResolveOne(m, key);
      HeadersForSnoc(m, keys, i);
      headers := headers + [header];
      i := i + 1;
    }
    assert keys[..i] == keys;
  }

  /** One pass of the loop body: exact lookup, then base-key lookup, then
      the title fallback. */
  method ResolveOne(m: map<string, string>, key: string) returns (header: string)
    ensures header == ResolveHeader(m, key)
  {
    header := if key in m then m[key] else "";
    if header == "" {
      var base := BaseKey(key);
      header := if base in m then m[base] else "";
      if header == "" {
        header := AliasTitle(key);
      }
    }
  }

  lemma HeadersForSnoc(m: map<string, string>, keys: seq<string>, i: nat)
    requires i < |keys|
    ensures HeadersFor(m, keys[..i + 1]) == HeadersFor(m, keys[..i]) + [ResolveHeader(m, keys[i])]
  {
    assert keys[..i + 1] == keys[..i] + [keys[i]];
  }

  /** `get_headers`, proved against Headers. */
  method GetHeaders(reportType: string) returns (headers: seq<string>)
    ensures headers == Headers(reportType)
  {
    var keys := ReportKeys(reportType);
    if |keys| == 0 {
      return [];
    }
    headers := ResolveAll(HeaderMap, keys);
  }

  /** The report type is matched in any letter case. */
  lemma HeadersIgnoreCase(reportType: string)
    ensures Headers(reportType) == Headers(Lower(reportType))
    ensures Headers(Upper(reportType)) == Headers(reportType)
  {
    LowerIdempotent(reportType);
    LowerOfUpper(reportType);
  }

  /** Exactly the seven known report types have headers. */
  lemma HeadersKnownTypes(reportType: string)
    ensures |Headers(reportType)| > 0 <==> Lower(reportType) in KeysOrder
    ensures KeysOrder.Keys == {"base_clientes", "rateio", "rateio_rzk", "clientes_por_licenciado",
                               "boletos_por_cliente", "recebiveis_clientes", "graduacao_licenciado"}
  {
    KeyListsNonEmpty();
  }

  lemma KeyListsNonEmpty()
    ensures forall t :: t in KeysOrder ==> |KeysOrder[t]| > 0
  {
  }

  /** The Rateio Geral keys are the result-column names of the Rateio field
      list, one for one and in the same order. */
  lemma RateioKeysMatchFields()
    ensures |KeysOrder["rateio"]| == |ReportsBase.RateioFields| == 44
    ensures forall i :: 0 <= i < 44 ==> KeysOrder["rateio"][i] == FieldKey(ReportsBase.RateioFields[i])
  {
    assert KeysOrder["rateio"] == RateioKeyOrder;
    RateioKeysFront();
    RateioKeysBack();
  }

  /** The first 22 Rateio keys match their fields. */
  lemma RateioKeysFront()
    ensures |RateioKeyOrder| == |ReportsBase.RateioFields| == 44
    ensures forall i :: 0 <= i < 22 ==> RateioKeyOrder[i] == FieldKey(ReportsBase.RateioFields[i])
  {
  }

  /** The last 22 Rateio keys match their fields. */
  lemma RateioKeysBack()
    ensures |RateioKeyOrder| == |ReportsBase.RateioFields| == 44
    ensures forall i :: 22 <= i < 44 ==> RateioKeyOrder[i] == FieldKey(ReportsBase.RateioFields[i])
  {
  }

  // ------------------------------------------------------------ suppliers

  /** The distinct non-empty supplier names, in the database's order. */
  const SuppliersQuery: Query :=
    Query([Lit("SELECT DISTINCT fornecedora FROM public.\"CLIENTES\" WHERE fornecedora IS NOT NULL"),
           Lit(" AND fornecedora <> '' ORDER BY fornecedora;")], [])

  /** `f and f[0]`: a row whose first column holds a non-empty name. */
  predicate NamedRow(r: Row)
  {
    |r| > 0 && r[0].Text? && r[0].s != ""
  }

  /** The names of the rows that pass the test, in row order. */
  function KeptNames(rows: seq<Row>): (names: seq<string>)
    ensures |names| <= |rows|
    ensures forall k :: 0 <= k < |names| ==> names[k] != ""
    ensures forall r: Row :: r in rows && NamedRow(r) ==> r[0].s in names
  {
    if |rows| == 0 then []
    else if NamedRow(rows[0]) then [rows[0][0].s] + KeptNames(rows[1..])
    else KeptNames(rows[1..])
  }

  /** `get_fornecedoras`: the kept names, sorted. The executor already
      turns every failure into no rows, so the result is then []. */
  function SupplierNames(db: Query -> seq<Row>): (names: seq<string>)
    ensures SortedStrings(names)
    ensures multiset(names) == multiset(KeptNames(ExecuteQuery(db, SuppliersQuery)))
  {
    SortStrings(KeptNames(ExecuteQuery(db, SuppliersQuery)))
  }

  /** The supplier list holds exactly the names of the named rows, each
      as often as it occurs, with no empty name and in order. */
  lemma SupplierNamesExact(db: Query -> seq<Row>)
    ensures forall n :: n in SupplierNames(db) ==> n != ""
    ensures forall r: Row :: r in ExecuteQuery(db, SuppliersQuery) && NamedRow(r) ==> r[0].s in SupplierNames(db)
    ensures forall i, j :: 0 <= i < j < |SupplierNames(db)| ==> StrLe(SupplierNames(db)[i], SupplierNames(db)[j])
  {
    var kept := KeptNames(ExecuteQuery(db, SuppliersQuery));
    var names := SupplierNames(db);
    forall n | n in names
      ensures n != ""
    {
      assert n in multiset(names);
      assert n in multiset(kept);
    }
    forall r: Row | r in ExecuteQuery(db, SuppliersQuery) && NamedRow(r)
      ensures r[0].s in names
    {
      assert r[0].s in multiset(kept);
    }
    forall i, j | 0 <= i < j < |names|
      ensures StrLe(names[i], names[j])
    {
      SortedPairs(names, i, j);
    }
  }

  /** A failing or empty answer gives an empty list. */
  lemma NoSuppliersWithoutRows(db: Query -> seq<Row>)
    requires db(SuppliersQuery) == []
    ensures SupplierNames(db) == []
  {
  }
}
