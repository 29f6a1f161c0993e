// The TV dashboard payload (backend/db/tv_dashboard.py): nine fixed queries
// whose answers are stored under seven keys, with the month's validation
// backlog merged into the registration counters.
module TvDashboard {
  import opened Common
  import SqlText

  /** A row as the dictionary cursor returns it: column name to value. */
  type Record = map<string, SqlText.Value>

  /** What a payload key holds: a single-row answer (possibly None) or the
      list of rows of a multi-row answer. */
  datatype Item = Single(row: Option<Record>) | Rows(rows: seq<Record>)

  /** The nine queries, in the order they run; the seven that are not
      "A Validar" queries also name the payload keys ("ativacoes", "kwh",
      "cadastros", "top_regioes", "top_fornecedoras", "top_licenciados",
      "grafico_ativacoes_mes"). */
  datatype TvQuery = Ativacoes | Kwh | Cadastros | Backlog | MesAtual
                   | TopRegioes | TopFornecedoras | TopLicenciados | GraficoMes

  /** The keys of a successful payload. */
  const PayloadKeys: set<TvQuery> := {Ativacoes, Kwh, Cadastros, TopRegioes, TopFornecedoras, TopLicenciados, GraficoMes}

  /** The single-row queries and the multi-row ones. */
  const SingleQueries: set<TvQuery> := {Ativacoes, Kwh, Cadastros, Backlog, MesAtual}
  const ListQueries: set<TvQuery> := {TopRegioes, TopFornecedoras, TopLicenciados, GraficoMes}

  // Columns of the two "A Validar" answers and the keys they are merged under.
  const QtyColumn: string := "a_validar_quantidade"
  const SumColumn: string := "a_validar_soma_consumo"
  const BacklogQty: string := "backlog_a_validar_quantidade"
  const BacklogSum: string := "backlog_a_validar_soma_consumo"

  /** The four keys the merge adds to the registration counters. */
  const ValidationKeys: set<string> := {BacklogQty, BacklogSum, QtyColumn, SumColumn}

  /** `if row:` holds for a row that is present and has a column. */
  predicate Truthy(row: Option<Record>)
  {
    row.Some? && |row.value| > 0
  }

  /** `row.get(column, 0)`. */
  function GetOrZero(row: Record, column: string): (v: SqlText.Value)
    ensures column in row ==> v == row[column]
    ensures column !in row ==> v == SqlText.Int(0)
  {
    if column in row then row[column] else SqlText.Int(0)
  }

  /** A validation answer's (quantity, sum), or (0, 0) when it is missing. */
  function Counters(row: Option<Record>): (qs: (SqlText.Value, SqlText.Value))
    ensures !Truthy(row) ==> qs == (SqlText.Int(0), SqlText.Int(0))
    ensures Truthy(row) ==> qs == (GetOrZero(row.value, QtyColumn), GetOrZero(row.value, SumColumn))
  {
    if Truthy(row) then (GetOrZero(row.value, QtyColumn), GetOrZero(row.value, SumColumn))
    else (SqlText.Int(0), SqlText.Int(0))
  }

  /** The registration counters after the merge. A missing or empty answer
      is stored as it is. Otherwise the four validation keys are set, from
      the backlog answer and the current month's answer, each pair 0 when
      its answer is missing, and every other column is kept. */
  function Merged(cadastros: Option<Record>, backlog: Option<Record>, current: Option<Record>): (r: Option<Record>)
    ensures !Truthy(cadastros) ==> r == cadastros
    ensures Truthy(cadastros) ==> r.Some? && r.value.Keys == cadastros.value.Keys + ValidationKeys
    ensures Truthy(cadastros) ==>
              forall k :: k in cadastros.value && k !in ValidationKeys ==> r.value[k] == cadastros.value[k]
    ensures Truthy(cadastros) ==>
              (r.value[BacklogQty], r.value[BacklogSum]) == Counters(backlog)
              && (r.value[QtyColumn], r.value[SumColumn]) == Counters(current)
  {
    if !Truthy(cadastros) then cadastros
    else
      var b := Counters(backlog);
      var c := Counters(current);
      Some(cadastros.value[BacklogQty := b.0][BacklogSum := b.1][QtyColumn := c.0][SumColumn := c.1])
  }

  /** The merge as the source performs it: copy the row, then assign the
      four keys one after another. */
  method MergeValidation(cadastros: Option<Record>, backlog: Option<Record>, current: Option<Record>)
    returns (r: Option<Record>)
    ensures r == Merged(cadastros, backlog, current)
  {
    r := cadastros;
    if Truthy(cadastros) {
      var row := cadastros.value;
      if Truthy(backlog) {
        row := row[BacklogQty := GetOrZero(backlog.value, QtyColumn)];
        row := row[BacklogSum := GetOrZero(backlog.value, SumColumn)];
      } else {
        row := row[BacklogQty := SqlText.Int(0)];
        row := row[BacklogSum := SqlText.Int(0)];
      }
      if Truthy(current) {
        row := row[QtyColumn := GetOrZero(current.value, QtyColumn)];
        row := row[SumColumn := GetOrZero(current.value, SumColumn)];
      } else {
        row := row[QtyColumn := SqlText.Int(0)];
        row := row[SumColumn := SqlText.Int(0)];
      }
      r := Some(row);
    }
  }

  /** The payload stored when every query answers. */
  function Payload(ativacoes: Option<Record>, kwh: Option<Record>, cadastros: Option<Record>, regioes: seq<Record>,
                   fornecedoras: seq<Record>, licenciados: seq<Record>, grafico: seq<Record>): (d: map<TvQuery, Item>)
    ensures d.Keys == PayloadKeys
    ensures d[Ativacoes] == Single(ativacoes) && d[Kwh] == Single(kwh) && d[Cadastros] == Single(cadastros)
    ensures d[TopRegioes] == Rows(regioes) && d[TopFornecedoras] == Rows(fornecedoras)
    ensures d[TopLicenciados] == Rows(licenciados) && d[GraficoMes] == Rows(grafico)
  {
    map[Ativacoes := Single(ativacoes), Kwh := Single(kwh), Cadastros := Single(cadastros),
        TopRegioes := Rows(regioes), TopFornecedoras := Rows(fornecedoras),
        TopLicenciados := Rows(licenciados), GraficoMes := Rows(grafico)]
  }

  /** Some query raised. */
  predicate AnyRaised(one: TvQuery -> Outcome<Option<Record>>, many: TvQuery -> Outcome<seq<Record>>)
  {
    (exists q :: q in SingleQueries && one(q).Raised?) || (exists q :: q in ListQueries && many(q).Raised?)
  }

  /** `get_tv_dashboard_data`: runs the queries in order, storing each answer
      under its key (the registration counters after the merge). Any
      exception ends the whole call with None, never a partial payload;
      otherwise the payload has exactly the seven keys. The executor is the
      pair of parameters `one` (single-row queries) and `many` (the others),
      each queried by name. */
  method TvDashboardData(one: TvQuery -> Outcome<Option<Record>>, many: TvQuery -> Outcome<seq<Record>>)
    returns (data: Option<map<TvQuery, Item>>)
    ensures data.None? <==> AnyRaised(one, many)
    ensures data.Some? ==> data.value.Keys == PayloadKeys
    ensures data.Some? ==> data.value[Ativacoes] == Single(one(Ativacoes).value) && data.value[Kwh] == Single(one(Kwh).value)
    ensures data.Some? ==>
              data.value[Cadastros] == Single(Merged(one(Cadastros).value, one(Backlog).value, one(MesAtual).value))
    ensures data.Some? ==> forall q :: q in ListQueries ==> data.value[q] == Rows(many(q).value)
  {
    var d: map<TvQuery, Item> := map[];
    var ativacoes := one(Ativacoes);
    if ativacoes.Raised? {
      assert Ativacoes in SingleQueries;
      return None;
    }
    d := d[Ativacoes := Single(ativacoes.value)];
    var kwh := one(Kwh);
    if kwh.Raised? {
      assert Kwh in SingleQueries;
      return None;
    }
    d := d[Kwh := Single(kwh.value)];
    var cadastros := one(Cadastros);
    if cadastros.Raised? {
      assert Cadastros in SingleQueries;
      return None;
    }
    var backlog := one(Backlog);
    if backlog.Raised? {
      assert Backlog in SingleQueries;
      return None;
    }
    var current := one(MesAtual);
    if current.Raised? {
      assert MesAtual in SingleQueries;
      return None;
    }
    var merged := MergeValidation(cadastros.value, backlog.value, current.value);
    d := d[Cadastros := Single(merged)];
    var regioes := many(TopRegioes);
    if regioes.Raised? {
      assert TopRegioes in ListQueries;
      return None;
    }
    d := d[TopRegioes := Rows(regioes.value)];
    var fornecedoras := many(TopFornecedoras);
    if fornecedoras.Raised? {
      assert TopFornecedoras in ListQueries;
      return None;
    }
    d := d[TopFornecedoras := Rows(fornecedoras.value)];
    var licenciados := many(TopLicenciados);
    if licenciados.Raised? {
      assert TopLicenciados in ListQueries;
      return None;
    }
    d := d[TopLicenciados := Rows(licenciados.value)];
    var grafico := many(GraficoMes);
    if grafico.Raised? {
      assert GraficoMes in ListQueries;
      return None;
    }
    d := d[GraficoMes := Rows(grafico.value)];
    assert d == Payload(ativacoes.value, kwh.value, merged, regioes.value, fornecedoras.value, licenciados.value, grafico.value);
    assert forall q | q in SingleQueries :: one(q).Done?;
    assert forall q | q in ListQueries :: many(q).Done?;
    data := Some(d);
  }
}
