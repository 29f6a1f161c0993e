// The TV dashboard page script (static/js/tv_dashboard.js): every minute it
// fetches the month's figures and shows the activation and kWh counts with
// their change against the previous month, the two top-5 tables and the
// monthly activation chart.
module TvPage {
  import opened Common
  import ApiRoutes

  /** A JSON number field: null, absent, or an integer. */
  datatype Num = Null | Absent | Number(v: int)

  // --------------------------------------------------------------- numbers

  /** A run of digits with a '.' before each group of three, counted from
      the right, as the pt-BR locale writes whole numbers. */
  function GroupDigits(d: string): (s: string)
    requires AllDigits(d)
    ensures |d| > 0 ==> |s| > 0 && s[0] == d[0]
    decreases |d|
  {
    if |d| <= 3 then d else GroupDigits(d[..|d| - 3]) + "." + d[|d| - 3..]
  }

  function Grouped(n: nat): (s: string)
    ensures |s| > 0 && IsDigit(s[0])
  {
    GroupDigits(ApiRoutes.DecimalText(n))
  }

  /** `formatNumber`: 'N/A' for null or undefined, else the number with
      thousands separators. */
  function FormatNumber(x: Num): (s: string)
    ensures s == "N/A" <==> !x.Number?
    ensures x.Number? && x.v >= 0 ==> s == Grouped(x.v)
    ensures x.Number? && x.v < 0 ==> s == "-" + Grouped(-x.v)
  {
    match x
    case Number(v) =>
      var s := if v < 0 then "-" + Grouped(-v) else Grouped(v);
      assert s[0] != "N/A"[0];
      s
    case _ => "N/A"
  }

  /** The separators are only separators: without them the text is the
      plain decimal writing of the number. */
  lemma GroupedDigits(n: nat)
    ensures RemoveChar(Grouped(n), '.') == ApiRoutes.DecimalText(n)
  {
    Ungroup(ApiRoutes.DecimalText(n));
  }

  lemma {:induction false} Ungroup(d: string)
    requires AllDigits(d)
    ensures RemoveChar(GroupDigits(d), '.') == d
    decreases |d|
  {
    assert '.' !in d by {
      assert forall i :: 0 <= i < |d| ==> IsDigit(d[i]);
    }
    if |d| > 3 {
      var front, back := d[..|d| - 3], d[|d| - 3..];
      assert AllDigits(front) && '.' !in back;
      Ungroup(front);
      RemoveCharConcat(GroupDigits(front) + ".", back, '.');
      RemoveCharConcat(GroupDigits(front), ".", '.');
      assert front + back == d;
    }
  }

  /** `x.toFixed(2)` for a non-negative value: the nearest multiple of 0.01,
      the larger one on a tie. */
  function UnsignedFixed2(x: real): (s: string)
    requires x >= 0.0
  {
    var n := (x * 100.0 + 0.5).Floor;
    assert n >= 0;
    ApiRoutes.DecimalText(n / 100) + "." + PadDigits(n % 100, 2)
  }

  /** `x.toFixed(2)`: a negative value is written as '-' and the fixed text
      of its magnitude (so a small negative value gives "-0.00"). */
  function Fixed2(x: real): (s: string)
    ensures |s| > 0 && s[0] != '+'
    ensures s[0] == '-' <==> x < 0.0
  {
    if x < 0.0 then "-" + UnsignedFixed2(-x) else UnsignedFixed2(x)
  }

  // ------------------------------------------------------------ percentages

  /** A change's text and CSS class. */
  datatype Change = Change(text: string, className: string)

  /** The JavaScript number a field gives in arithmetic: null is 0, an
      absent field is NaN (None). */
  function Arith(x: Num): Option<real>
  {
    match x
    case Null => Some(0.0)
    case Absent => None
    case Number(v) => Some(v as real)
  }

  /** `(current - previous) / previous * 100`, NaN (None) when the current
      value is absent. */
  function Percentage(current: Num, previous: int): (p: Option<real>)
    requires previous != 0
    ensures current.Absent? <==> p.None?
    ensures p.Some? ==> p.value == (Arith(current).value - previous as real) / previous as real * 100.0
  {
    match Arith(current)
    case None => None
    case Some(c) => Some((c - previous as real) / previous as real * 100.0)
  }

  /** `calculatePercentage`. With no baseline (previous null or 0): '+100%'
      and 'positive' when the current value is above 0, else '0%' and
      'neutral'. Otherwise the percentage with two decimals, a '+' only
      when it is above 0, and 'positive' when it is at least 0 ('NaN%' and
      'negative' when it is not a number). */
  function CalculatePercentage(current: Num, previous: Num): (c: Change)
    ensures previous.Null? || previous == Number(0) ==>
              c == (if current.Number? && current.v > 0 then Change("+100%", "positive") else Change("0%", "neutral"))
    ensures previous.Number? && previous.v != 0 ==>
              var p := Percentage(current, previous.v);
              (c.className == "positive" <==> p.Some? && p.value >= 0.0)
              && (c.className == "negative" <==> !(p.Some? && p.value >= 0.0))
              && (p.Some? ==> c.text == (if p.value > 0.0 then "+" else "") + Fixed2(p.value) + "%")
              && (p.None? ==> c.text == "NaN%")
  {
    if previous.Null? || previous == Number(0) then
      if current.Number? && current.v > 0 then Change("+100%", "positive") else Change("0%", "neutral")
    else if previous.Absent? then
      // undefined - undefined: every comparison with NaN is false
      Change("NaN%", "negative")
    else
      var p := Percentage(current, previous.v);
      match p
      case None => Change("NaN%", "negative")
      case Some(x) => Change((if x > 0.0 then "+" else "") + Fixed2(x) + "%", if x >= 0.0 then "positive" else "negative")
  }

  /** Over a real baseline the text starts with '+' exactly when the value
      grew, with '-' exactly when it fell, and the class is 'positive'
      exactly when it did not fall. */
  lemma GrowthShows(current: int, previous: int)
    requires previous > 0
    ensures var c := CalculatePercentage(Number(current), Number(previous));
            |c.text| > 0
            && (c.text[0] == '+' <==> current > previous)
            && (c.text[0] == '-' <==> current < previous)
            && (c.className == "positive" <==> current >= previous)
  {
    var x := (current as real - previous as real) / previous as real * 100.0;
    assert x > 0.0 <==> current > previous by {
      DivisionSign(current as real - previous as real, previous as real);
    }
    assert x < 0.0 <==> current < previous by {
      DivisionSign(current as real - previous as real, previous as real);
    }
  }

  lemma DivisionSign(d: real, p: real)
    requires p > 0.0
    ensures d / p * 100.0 > 0.0 <==> d > 0.0
    ensures d / p * 100.0 < 0.0 <==> d < 0.0
    ensures d / p * 100.0 == 0.0 <==> d == 0.0
  {
    var q := d / p;
    assert q * p == d;
  }

  /** Equal values give "0.00%" with no sign and the class 'positive'. */
  lemma NoChange(v: int)
    requires v != 0
    ensures CalculatePercentage(Number(v), Number(v)) == Change("0.00%", "positive")
  {
    assert (v as real - v as real) / v as real * 100.0 == 0.0;
    assert (0.0 * 100.0 + 0.5).Floor == 0;
    assert UnsignedFixed2(0.0) == "0.00";
  }

  // ------------------------------------------------------------------ chart

  const Months: seq<string> := ["Jan", "Fev", "Mar", "Abr", "Mai", "Jun", "Jul", "Ago", "Set", "Out", "Nov", "Dez"]

  /** One point of `grafico_ativacoes_mes`. */
  datatype Point = Point(mes: int, ano: int, quantidade: int)

  /** A point's label: the month's abbreviation for 1 .. 12, else
      "mes/ano". */
  function MonthLabel(p: Point): (l: string)
    ensures 1 <= p.mes <= 12 ==> l == Months[p.mes - 1]
    ensures !(1 <= p.mes <= 12) ==> l == ApiRoutes.IntText(p.mes) + "/" + ApiRoutes.IntText(p.ano)
  {
    if 1 <= p.mes <= 12 then Months[p.mes - 1] else ApiRoutes.IntText(p.mes) + "/" + ApiRoutes.IntText(p.ano)
  }

  /** The chart's data: one label and one value per point, in order. */
  datatype TvChart = TvChart(labels: seq<string>, values: seq<int>)

  function ChartOf(data: seq<Point>): (c: TvChart)
    ensures |c.labels| == |data| && |c.values| == |data|
    ensures forall i :: 0 <= i < |data| ==> c.labels[i] == MonthLabel(data[i]) && c.values[i] == data[i].quantidade
  {
    TvChart(seq(|data|, i requires 0 <= i < |data| => MonthLabel(data[i])),
            seq(|data|, i requires 0 <= i < |data| => data[i].quantidade))
  }

  /** A label names a calendar month exactly when it is an abbreviation. */
  lemma LabelsAreMonthsOrFallback(p: Point)
    ensures MonthLabel(p) in Months <==> 1 <= p.mes <= 12
  {
    if !(1 <= p.mes <= 12) {
      var l := MonthLabel(p);
      var m := ApiRoutes.IntText(p.mes);
      assert l[|m|] == '/';
      assert forall k :: 0 <= k < 12 ==> |Months[k]| == 3 && '/' !in Months[k];
      if |m| < 3 {
        assert forall k :: 0 <= k < 12 ==> Months[k][|m|] != '/';
      }
    }
  }

  // ------------------------------------------------------------------ table

  /** A text member of an answer object as JavaScript sees it: null (a
      SQL NULL), undefined (no such member) or a string. */
  datatype Text = NullText | AbsentText | Str(s: string)

  /** A JavaScript truth test of a text member: only a non-empty string
      is truthy. */
  predicate Truthy(x: Text)
  {
    x.Str? && x.s != ""
  }

  /** One entry of a top-5 list: the regions' list has no `fornecedora`
      member and the suppliers' list no `região` member. */
  datatype TopItem = TopItem(fornecedora: Text, regiao: Text, registros: Num, consumo: Num)

  /** A body row: a name and two formatted numbers, or the placeholder. */
  datatype TvRow = TvRow(name: string, registros: string, consumo: string) | NoDataRow

  /** `${item.fornecedora || item.região}`: the supplier when it is a
      non-empty text, else the region as a template literal writes it
      ("null" for null, "undefined" when absent). */
  function RowName(item: TopItem): (s: string)
    ensures Truthy(item.fornecedora) ==> s == item.fornecedora.s
    ensures !Truthy(item.fornecedora) && item.regiao.Str? ==> s == item.regiao.s
    ensures !Truthy(item.fornecedora) && item.regiao.NullText? ==> s == "null"
    ensures !Truthy(item.fornecedora) && item.regiao.AbsentText? ==> s == "undefined"
  {
    var name := if Truthy(item.fornecedora) then item.fornecedora else item.regiao;
    match name
    case NullText => "null"
    case AbsentText => "undefined"
    case Str(t) => t
  }

  /** A region group whose region is NULL is listed under the name "null";
      a supplier group whose supplier is NULL or empty falls through to the
      missing region and is listed as "undefined". */
  lemma NullRegionShown(n: Num, c: Num)
    ensures RowName(TopItem(AbsentText, NullText, n, c)) == "null"
    ensures RowName(TopItem(NullText, AbsentText, n, c)) == "undefined"
    ensures RowName(TopItem(Str(""), AbsentText, n, c)) == "undefined"
  {
  }

  function RowOf(item: TopItem): TvRow
  {
    TvRow(RowName(item), FormatNumber(item.registros), FormatNumber(item.consumo))
  }

  /** What `populateTable` leaves: the placeholder alone for a missing or
      empty list, else one row per entry. */
  function TableOf(data: Option<seq<TopItem>>): (rows: seq<TvRow>)
    ensures data.None? || data == Some([]) ==> rows == [NoDataRow]
    ensures data.Some? && data.value != [] ==>
              |rows| == |data.value| && forall i :: 0 <= i < |rows| ==> rows[i] == RowOf(data.value[i])
    ensures NoDataRow in rows ==> rows == [NoDataRow]
  {
    if data.None? || data.value == [] then [NoDataRow]
    else seq(|data.value|, i requires 0 <= i < |data.value| => RowOf(data.value[i]))
  }

  // ------------------------------------------------------------------- page

  /** A KPI block's change after an answer: recomputed when the figure is
      present, else left as it was. */
  function ChangeOf(p: Option<Pair>, prior: Option<Change>): (c: Option<Change>)
    ensures p.None? ==> c == prior
    ensures p.Some? ==> c.Some? && c.value == CalculatePercentage(p.value.atual, p.value.anterior)
  {
    if p.Some? then Some(CalculatePercentage(p.value.atual, p.value.anterior)) else prior
  }

  /** The current and previous month's figure of one KPI. */
  datatype Pair = Pair(atual: Num, anterior: Num)

  /** The `data` object of a successful answer. */
  datatype TvData = TvData(ativacoes: Option<Pair>, kwh: Option<Pair>, topRegioes: Option<seq<TopItem>>,
                           topFornecedoras: Option<seq<TopItem>>, grafico: Option<seq<Point>>)

  /** The answer of one refresh: the fetch or its JSON failed, or a status
      and data. */
  datatype TvReply = FetchFailed | Reply(status: string, data: TvData)

  class Screen {
    var activations: string
    var activationsChange: Option<Change>
    var kwh: string
    var kwhChange: Option<Change>
    var topRegions: seq<TvRow>
    var topSuppliers: seq<TvRow>
    /** The live chart instance. */
    var chart: Option<TvChart>
    /** How many instances were created and destroyed. */
    var created: nat
    var destroyed: nat

    /** Every instance but the live one has been destroyed. */
    predicate Valid()
      reads this
    {
      destroyed <= created && created - destroyed == (if chart.Some? then 1 else 0)
    }

    constructor ()
      ensures Valid() && chart.None? && created == 0 && destroyed == 0
      ensures activations == "" && kwh == "" && activationsChange.None? && kwhChange.None?
      ensures topRegions == [] && topSuppliers == []
    {
      activations, kwh := "", "";
      activationsChange, kwhChange := None, None;
      topRegions, topSuppliers := [], [];
      chart := None;
      created, destroyed := 0, 0;
    }

    /** `renderChart`: the previous instance is destroyed, then a new one
        holds the data. */
    method RenderChart(data: seq<Point>)
      requires Valid()
      modifies this
      ensures Valid()
      ensures chart == Some(ChartOf(data)) && created == old(created) + 1
      ensures destroyed == old(destroyed) + (if old(chart).Some? then 1 else 0)
      ensures activations == old(activations) && activationsChange == old(activationsChange)
      ensures kwh == old(kwh) && kwhChange == old(kwhChange)
      ensures topRegions == old(topRegions) && topSuppliers == old(topSuppliers)
    {
      var labels: seq<string> := [];
      var values: seq<int> := [];
      var i := 0;
      while i < |data|
        invariant 0 <= i <= |data|
        invariant |labels| == i && |values| == i
        invariant forall k :: 0 <= k < i ==> labels[k] == MonthLabel(data[k]) && values[k] == data[k].quantidade
      {
        labels := labels + [MonthLabel(data[i])];
        values := values + [data[i].quantidade];
        i := i + 1;
      }
      if chart.Some? {
        destroyed := destroyed + 1;
        chart := None;
      }
      assert labels == ChartOf(data).labels && values == ChartOf(data).values;
      chart := Some(TvChart(labels, values));
      created := created + 1;
    }

    /** The two KPI blocks of a successful answer: each present figure
        writes its count (kWh with its unit) and its change; an absent one
        leaves its block as it was. */
    method ShowKpis(d: TvData)
      modifies this
      ensures activations == (if d.ativacoes.Some? then FormatNumber(d.ativacoes.value.atual) else old(activations))
      ensures activationsChange == ChangeOf(d.ativacoes, old(activationsChange))
      ensures kwh == (if d.kwh.Some? then FormatNumber(d.kwh.value.atual) + " kWh" else old(kwh))
      ensures kwhChange == ChangeOf(d.kwh, old(kwhChange))
      ensures topRegions == old(topRegions) && topSuppliers == old(topSuppliers)
      ensures chart == old(chart) && created == old(created) && destroyed == old(destroyed)
    {
      if d.ativacoes.Some? {
        activations := FormatNumber(d.ativacoes.value.atual);
        activationsChange := Some(CalculatePercentage(d.ativacoes.value.atual, d.ativacoes.value.anterior));
      }
      if d.kwh.Some? {
        kwh := FormatNumber(d.kwh.value.atual) + " kWh";
        kwhChange := Some(CalculatePercentage(d.kwh.value.atual, d.kwh.value.anterior));
      }
    }

    /** A successful answer: the KPIs, both tables, then the chart; a
        missing chart list throws after the tables are filled, and the
        handler writes 'Erro' into both counts. */
    method ShowData(d: TvData)
      requires Valid()
      modifies this
      ensures Valid()
      ensures topRegions == TableOf(d.topRegioes) && topSuppliers == TableOf(d.topFornecedoras)
      ensures activationsChange == ChangeOf(d.ativacoes, old(activationsChange))
      ensures kwhChange == ChangeOf(d.kwh, old(kwhChange))
      ensures d.grafico.Some? ==>
                chart == Some(ChartOf(d.grafico.value)) && created == old(created) + 1
                && activations == (if d.ativacoes.Some? then FormatNumber(d.ativacoes.value.atual) else old(activations))
                && kwh == (if d.kwh.Some? then FormatNumber(d.kwh.value.atual) + " kWh" else old(kwh))
      ensures d.grafico.None? ==>
                activations == "Erro" && kwh == "Erro" && chart == old(chart)
                && created == old(created) && destroyed == old(destroyed)
    {
      ShowKpis(d);
      topRegions := PopulateTable(d.topRegioes);
      topSuppliers := PopulateTable(d.topFornecedoras);
      if d.grafico.None? {
        activations, kwh := "Erro", "Erro";
      } else {
        RenderChart(d.grafico.value);
      }
    }

    /** One `fetchDataAndRender`. A failed fetch (or unreadable JSON)
        writes 'Erro' into both counts; a status other than 'success'
        changes nothing. */
    method Refresh(reply: TvReply)
      requires Valid()
      modifies this
      ensures Valid()
      ensures reply.FetchFailed? ==>
                activations == "Erro" && kwh == "Erro" && activationsChange == old(activationsChange)
                && kwhChange == old(kwhChange) && topRegions == old(topRegions) && topSuppliers == old(topSuppliers)
                && chart == old(chart) && created == old(created) && destroyed == old(destroyed)
      ensures reply.Reply? && reply.status != "success" ==>
                activations == old(activations) && kwh == old(kwh) && activationsChange == old(activationsChange)
                && kwhChange == old(kwhChange) && topRegions == old(topRegions) && topSuppliers == old(topSuppliers)
                && chart == old(chart) && created == old(created) && destroyed == old(destroyed)
      ensures reply.Reply? && reply.status == "success" ==>
                topRegions == TableOf(reply.data.topRegioes) && topSuppliers == TableOf(reply.data.topFornecedoras)
                && activationsChange == ChangeOf(reply.data.ativacoes, old(activationsChange))
                && kwhChange == ChangeOf(reply.data.kwh, old(kwhChange))
                && (reply.data.grafico.Some? ==> chart == Some(ChartOf(reply.data.grafico.value)) && created == old(created) + 1)
                && (reply.data.grafico.None? ==> activations == "Erro" && kwh == "Erro" && chart == old(chart))
    {
      if reply.FetchFailed? {
        activations, kwh := "Erro", "Erro";
      } else if reply.status == "success" {
        ShowData(reply.data);
      }
    }
  }

  /** `populateTable`: the body is cleared, then one row per entry is
      appended, or the placeholder when there is none. */
  method PopulateTable(data: Option<seq<TopItem>>) returns (rows: seq<TvRow>)
    ensures rows == TableOf(data)
  {
    rows := [];
    if data.Some? && |data.value| > 0 {
      var items := data.value;
      var i := 0;
      while i < |items|
        invariant 0 <= i <= |items|
        invariant |rows| == i && forall k :: 0 <= k < i ==> rows[k] == RowOf(items[k])
      {
        rows := rows + [RowOf(items[i])];
        i := i + 1;
      }
    } else {
      rows := [NoDataRow];
    }
  }
}
