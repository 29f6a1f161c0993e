// The green score page script (static/js/green_score.js): choosing a
// supplier switches the page between a placeholder, the consolidated view
// (one gauge per supplier, no monthly figures) and a single supplier's view
// (its logo, gauge, month KPIs and monthly activation chart).
module GreenScorePage {
  import opened Common

  // ---------------------------------------------------------------- colours

  /** The gauge colour pairs, best band first. */
  const Green: (string, string) := ("#86efac", "#16a34a")
  const Yellow: (string, string) := ("#fde047", "#f97316")
  const Orange: (string, string) := ("#fdba74", "#dc2626")
  const Red: (string, string) := ("#fca5a5", "#b91c1c")

  /** The band of a score, 0 (best) to 3; each lower bound belongs to the
      band above it. */
  function Band(value: real): (b: nat)
    ensures b <= 3
    ensures b == 0 <==> value >= 80.0
    ensures b == 1 <==> 60.0 <= value < 80.0
    ensures b == 2 <==> 40.0 <= value < 60.0
    ensures b == 3 <==> value < 40.0
  {
    if value >= 80.0 then 0 else if value >= 60.0 then 1 else if value >= 40.0 then 2 else 3
  }

  /** `getScoreColors`: the pair of the score's band. */
  function ScoreColors(value: real): (c: (string, string))
    ensures c == Green <==> value >= 80.0
    ensures c == Yellow <==> 60.0 <= value < 80.0
    ensures c == Orange <==> 40.0 <= value < 60.0
    ensures c == Red <==> value < 40.0
  {
    [Green, Yellow, Orange, Red][Band(value)]
  }

  /** A higher score never gets a worse band. */
  lemma BandMonotone(a: real, b: real)
    requires a <= b
    ensures Band(b) <= Band(a)
  {
  }

  /** The boundaries: 80, 60 and 40 are in the upper band, anything just
      below them in the lower one. */
  lemma BoundariesInclusive(eps: real)
    requires 0.0 < eps <= 20.0
    ensures ScoreColors(80.0) == Green && ScoreColors(80.0 - eps) != Green
    ensures ScoreColors(60.0) == Yellow && ScoreColors(60.0 - eps) != Yellow
    ensures ScoreColors(40.0) == Orange && ScoreColors(40.0 - eps) != Orange
  {
  }

  /** `Math.round`: halves go up. */
  function Round(x: real): (n: int)
    ensures x - 0.5 < n as real <= x + 0.5
  {
    (x + 0.5).Floor
  }

  // --------------------------------------------------------------- encoding

  /** The characters `encodeURIComponent` leaves as they are. */
  predicate Unreserved(c: char)
  {
    ('A' <= c <= 'Z') || ('a' <= c <= 'z') || ('0' <= c <= '9')
    || c == '-' || c == '_' || c == '.' || c == '!' || c == '~' || c == '*' || c == '\'' || c == '(' || c == ')'
  }

  /** What an encoded text is made of: unreserved characters and '%'. */
  predicate Encoded(c: char)
  {
    Unreserved(c) || c == '%'
  }

  function HexDigit(d: int): (c: char)
    requires 0 <= d < 16
    ensures Unreserved(c)
  {
    if d < 10 then (48 + d) as char else (55 + d) as char
  }

  /** The UTF-8 bytes of one character. */
  function Utf8(c: char): (bs: seq<int>)
    ensures 1 <= |bs| <= 4
    ensures forall i :: 0 <= i < |bs| ==> 0 <= bs[i] < 256
  {
    var n := c as int;
    if n < 0x80 then [n]
    else if n < 0x800 then [0xC0 + n / 64, 0x80 + n % 64]
    else if n < 0x10000 then [0xE0 + n / 4096, 0x80 + (n / 64) % 64, 0x80 + n % 64]
    else [0xF0 + n / 262144, 0x80 + (n / 4096) % 64, 0x80 + (n / 64) % 64, 0x80 + n % 64]
  }

  /** Each byte as '%' and two upper-case hex digits. */
  function Percent(bs: seq<int>): (r: string)
    requires forall i :: 0 <= i < |bs| ==> 0 <= bs[i] < 256
    ensures |r| == 3 * |bs|
    ensures forall i :: 0 <= i < |r| ==> Encoded(r[i])
    decreases |bs|
  {
    if bs == [] then []
    else ['%', HexDigit(bs[0] / 16), HexDigit(bs[0] % 16)] + Percent(bs[1..])
  }

  function EncodeChar(c: char): (r: string)
    ensures forall i :: 0 <= i < |r| ==> Encoded(r[i])
    ensures Unreserved(c) ==> r == [c]
  {
    if Unreserved(c) then [c] else Percent(Utf8(c))
  }

  /** `encodeURIComponent`: the result holds only unreserved characters and
      '%', and a text of unreserved characters is its own encoding. */
  function Encode(s: string): (r: string)
    ensures forall i :: 0 <= i < |r| ==> Encoded(r[i])
    ensures (forall i :: 0 <= i < |s| ==> Unreserved(s[i])) ==> r == s
    decreases |s|
  {
    if s == [] then [] else EncodeChar(s[0]) + Encode(s[1..])
  }

  /** `fornecedoraParam`: nothing for an empty name or 'consolidado' in any
      case, else the name as an extra query argument. */
  function FornecedoraParam(name: Option<string>): (p: string)
    ensures p == "" <==> name.None? || name.value == "" || Lower(name.value) == "consolidado"
    ensures p != "" ==> p == "&fornecedora=" + Encode(name.value)
  {
    if name.None? || name.value == "" || Lower(name.value) == "consolidado" then ""
    else "&fornecedora=" + Encode(name.value)
  }

  /** A supplier's name cannot add or change query arguments: after the
      argument's own "&fornecedora=" there is no '&', '=', '#' or space. */
  lemma ParamCannotInject(name: Option<string>)
    ensures var p := FornecedoraParam(name);
            p != "" ==> forall i :: 13 <= i < |p| ==> p[i] != '&' && p[i] != '=' && p[i] != '#' && p[i] != ' '
  {
    var p := FornecedoraParam(name);
    if p != "" {
      var e := Encode(name.value);
      assert forall i :: 13 <= i < |p| ==> p[i] == e[i - 13];
    }
  }

  /** 'Consolidado', 'CONSOLIDADO' and 'consolidado' all mean no filter. */
  lemma ConsolidatedInAnyCase()
    ensures FornecedoraParam(Some("Consolidado")) == ""
    ensures FornecedoraParam(Some("CONSOLIDADO")) == ""
    ensures FornecedoraParam(Some("consolidado")) == ""
  {
    assert Lower("Consolidado") == "consolidado";
    assert Lower("CONSOLIDADO") == "consolidado";
    assert Lower("consolidado") == "consolidado";
  }

  // ------------------------------------------------------------------ logos

  const SupplierLogos: map<string, string> := map[
    "SOLATIO" := "/static/img/fornecedoras/solatio.png",
    "COMERC" := "/static/img/fornecedoras/comerc.png",
    "RZK" := "/static/img/fornecedoras/rzk.png",
    "BC ENERGIA" := "/static/img/fornecedoras/bc_energia.png",
    "BOM FUTURO" := "/static/img/fornecedoras/bom_futuro.png",
    "ULTRA" := "/static/img/fornecedoras/ultra.png",
    "FIT" := "/static/img/fornecedoras/fit.png",
    "COTESA" := "/static/img/fornecedoras/cotesa.png",
    "SINERGI" := "/static/img/fornecedoras/sinergi.png",
    "ATUA" := "/static/img/fornecedoras/atua.png",
    "MATRIX" := "/static/img/fornecedoras/matrix.png",
    "REENERGISA" := "/static/img/fornecedoras/reenergisa.png",
    "VANTAGE" := "/static/img/fornecedoras/vantage.png",
    "EDP" := "/static/img/fornecedoras/edp.png",
    "GV" := "/static/img/fornecedoras/gv.png",
    "FARO" := "/static/img/fornecedoras/faro.png"
  ]

  /** The logo of a supplier, looked up by its upper-cased name. */
  function LogoFor(name: string): (r: Option<string>)
    ensures r.Some? <==> Upper(name) in SupplierLogos
    ensures r.Some? ==> r.value == SupplierLogos[Upper(name)] && r.value != ""
  {
    if Upper(name) in SupplierLogos then Some(SupplierLogos[Upper(name)]) else None
  }

  /** The lookup ignores case. */
  lemma LogoIgnoresCase(name: string)
    ensures LogoFor(Lower(name)) == LogoFor(name)
  {
    assert Upper(Lower(name)) == Upper(name);
  }

  // ------------------------------------------------------------------- view

  /** The page's parts whose display the script switches. */
  datatype Section = Main | Placeholder | Logo | MonthKpis | ChartCard | Gauges | ConsolidatedKpis | GaugeRow

  /** The displays with nothing selected: only the placeholder shows. */
  const Blank: map<Section, string> := map[
    Main := "none", Placeholder := "block", Logo := "none", MonthKpis := "none",
    ChartCard := "none", Gauges := "none", ConsolidatedKpis := "none"]

  /** The displays of the consolidated view. */
  const ConsolidatedView: map<Section, string> := map[
    Placeholder := "none", Main := "flex", Gauges := "grid", Logo := "none", MonthKpis := "none",
    ChartCard := "none", ConsolidatedKpis := "grid", GaugeRow := "block"]

  /** The displays of one supplier's view; the logo shows only when the
      supplier has one. */
  function SingleView(hasLogo: bool): map<Section, string>
  {
    map[Placeholder := "none", Main := "flex", Logo := if hasLogo then "block" else "none", MonthKpis := "grid",
        ChartCard := "block", ConsolidatedKpis := "grid", Gauges := "flex", GaugeRow := "flex"]
  }

  /** Which view a selection gets: none for an empty or missing value, the
      consolidated one for exactly 'Consolidado', else one supplier's. */
  datatype Mode = Nothing | Consolidated | Single(name: string)

  function ModeOf(selection: Option<string>): (m: Mode)
    ensures m.Nothing? <==> selection.None? || selection.value == ""
    ensures m.Consolidated? <==> selection == Some("Consolidado")
    ensures m.Single? ==> selection == Some(m.name)
  {
    if selection.None? || selection.value == "" then Nothing
    else if selection.value == "Consolidado" then Consolidated
    else Single(selection.value)
  }

  function ViewOf(m: Mode): map<Section, string>
  {
    match m
    case Nothing => Blank
    case Consolidated => ConsolidatedView
    case Single(name) => SingleView(LogoFor(name).Some?)
  }

  /** What each view shows: the placeholder alone with nothing chosen; the
      consolidated KPIs but not the month KPIs, the chart or a logo for
      'Consolidado'; the month KPIs, the chart and the consolidated KPIs
      for a supplier. */
  lemma ViewsShow(selection: Option<string>)
    ensures var v := ViewOf(ModeOf(selection));
            Placeholder in v && MonthKpis in v && ChartCard in v && ConsolidatedKpis in v && Logo in v
            && (v[Placeholder] != "none" <==> ModeOf(selection).Nothing?)
            && (ModeOf(selection).Nothing? ==> forall s :: s in v && s != Placeholder ==> v[s] == "none")
            && (ModeOf(selection).Consolidated? ==>
                  v[MonthKpis] == "none" && v[ChartCard] == "none" && v[Logo] == "none" && v[ConsolidatedKpis] != "none")
            && (ModeOf(selection).Single? ==>
                  v[MonthKpis] != "none" && v[ChartCard] != "none" && v[ConsolidatedKpis] != "none"
                  && (v[Logo] != "none" <==> LogoFor(selection.value).Some?))
  {
  }

  /** Only the exact spelling selects the consolidated view, while the
      consolidated KPIs drop the filter for any spelling. */
  lemma ModeIsCaseSensitive()
    ensures ModeOf(Some("consolidado")) == Single("consolidado")
    ensures FornecedoraParam(Some("consolidado")) == ""
  {
    ConsolidatedInAnyCase();
  }

  // ---------------------------------------------------------------- loading

  /** A request the page starts. */
  datatype Load =
    | AllScores                          // the scores of every supplier
    | ScoreOf(name: string)              // one supplier's score
    | MonthKpisOf(name: string)          // the three month KPIs
    | ConsolidatedKpisOf(param: string)  // the four consolidated KPIs
    | MonthlyChartOf(name: string, year: string)

  /** One entry of the scores answer. */
  datatype ScoreInfo = ScoreInfo(supplier: string, score: real)

  /** The scores answer: an error message, or the list of scores. */
  datatype ScoresReply = ScoresFailed(message: string) | Scores(entries: seq<ScoreInfo>)

  /** A gauge: its title, the rounded value it draws and its colours. */
  datatype Dial = Dial(title: string, series: int, colors: (string, string))

  /** What the gauge area holds. */
  datatype GaugeArea = Empty | Spinner(plural: bool, name: string) | Dials(dials: seq<Dial>) | NoScores | Failure(message: string)

  function DialOf(s: ScoreInfo): (d: Dial)
    ensures d.title == s.supplier && d.colors == ScoreColors(s.score)
    ensures s.score - 0.5 < d.series as real <= s.score + 0.5
  {
    Dial(s.supplier, Round(s.score), ScoreColors(s.score))
  }

  /** The gauge area once the scores arrive: every entry in the
      consolidated view, the first one for a supplier, a notice when there
      is none and the message on failure. */
  function GaugesFor(consolidated: bool, reply: ScoresReply): (g: GaugeArea)
    ensures reply.ScoresFailed? ==> g == Failure(reply.message)
    ensures reply.Scores? && reply.entries == [] ==> g == NoScores
    ensures reply.Scores? && reply.entries != [] && consolidated ==>
              g.Dials? && |g.dials| == |reply.entries|
              && forall i :: 0 <= i < |reply.entries| ==> g.dials[i] == DialOf(reply.entries[i])
    ensures reply.Scores? && reply.entries != [] && !consolidated ==> g == Dials([DialOf(reply.entries[0])])
  {
    match reply
    case ScoresFailed(message) => Failure(message)
    case Scores(entries) =>
      if entries == [] then NoScores
      else if consolidated then Dials(seq(|entries|, i requires 0 <= i < |entries| => DialOf(entries[i])))
      else Dials([DialOf(entries[0])])
  }

  /** The monthly chart's answer: a failure, or the `monthly_counts` value
      (None when it is not an array). */
  datatype ChartReply = ChartFailed | ChartCounts(counts: Option<seq<int>>)

  /** The chart's status line. */
  datatype ChartStatus = Idle | Loading | NoData | LoadError

  /** The chart instance: its labels, values and data set caption. */
  datatype LineChart = LineChart(labels: seq<string>, values: seq<int>, caption: string)

  const MonthTags: seq<string> := ["JAN", "FEV", "MAR", "ABR", "MAI", "JUN", "JUL", "AGO", "SET", "OUT", "NOV", "DEZ"]

  /** Exactly twelve counts make a drawable answer. */
  predicate Drawable(reply: ChartReply)
  {
    reply.ChartCounts? && reply.counts.Some? && |reply.counts.value| == 12
  }

  class Page {
    var display: map<Section, string>
    var logoSrc: string
    var gauges: GaugeArea
    /** The requests started, in order. */
    var loads: seq<Load>
    var chart: Option<LineChart>
    /** How many chart instances have been created. */
    var created: nat
    var status: ChartStatus
    var canvasShown: bool
    /** Whether the chart's canvas exists. */
    const hasCanvas: bool

    /** A chart, when there is one, has one value per month. */
    predicate Valid()
      reads this
    {
      chart.Some? ==> chart.value.labels == MonthTags && |chart.value.values| == 12
    }

    /** The initial state: everything but the placeholder hidden. */
    constructor (canvas: bool)
      ensures Valid()
      ensures display == Blank && logoSrc == "" && gauges == Empty && loads == []
      ensures chart.None? && created == 0 && status == Idle && !canvasShown && hasCanvas == canvas
    {
      display := Blank;
      logoSrc := "";
      gauges := Empty;
      loads := [];
      chart := None;
      created := 0;
      status := Idle;
      canvasShown := false;
      hasCanvas := canvas;
    }

    /** The start of `updateGreenScoreMonthlyChart`: without a canvas
        nothing happens; otherwise the status shows loading, the canvas is
        hidden and the request starts. */
    method StartChart(name: string, year: string)
      modifies this
      ensures hasCanvas ==> loads == old(loads) + [MonthlyChartOf(name, year)] && status == Loading && !canvasShown
      ensures !hasCanvas ==> loads == old(loads) && status == old(status) && canvasShown == old(canvasShown)
      ensures display == old(display) && logoSrc == old(logoSrc) && gauges == old(gauges)
      ensures chart == old(chart) && created == old(created)
    {
      if !hasCanvas {
        return;
      }
      status := Loading;
      canvasShown := false;
      loads := loads + [MonthlyChartOf(name, year)];
    }

    /** `loadScoreFor`, up to its first wait: the view of the selection,
        the gauge spinner, and the requests it starts; `year` is the year
        selector's value (or the current year). Each branch's display
        writes are applied as one update, the later write to a part
        winning. */
    method LoadScoreFor(selection: Option<string>, year: string)
      modifies this
      ensures display == old(display) + ViewOf(ModeOf(selection))
      ensures ModeOf(selection).Nothing? ==> loads == old(loads) && gauges == old(gauges) && logoSrc == old(logoSrc)
      ensures ModeOf(selection).Consolidated? ==>
                loads == old(loads) + [AllScores] && gauges == Spinner(true, "Consolidado") && logoSrc == old(logoSrc)
      ensures ModeOf(selection).Single? ==>
                gauges == Spinner(false, selection.value)
                && logoSrc == (if LogoFor(selection.value).Some? then LogoFor(selection.value).value else "")
                && loads == old(loads) + [MonthKpisOf(selection.value)]
                            + (if hasCanvas then [MonthlyChartOf(selection.value, year)] else [])
                            + [ScoreOf(selection.value)]
      ensures chart == old(chart) && created == old(created)
      ensures ModeOf(selection).Single? && hasCanvas ==> status == Loading && !canvasShown
      ensures !(ModeOf(selection).Single? && hasCanvas) ==> status == old(status) && canvasShown == old(canvasShown)
    {
      if selection.None? || selection.value == "" {
        display := display + Blank;
      } else if selection.value == "Consolidado" {
        gauges := Spinner(true, selection.value);
        display := display + ConsolidatedView;
        loads := loads + [AllScores];
      } else {
        ShowSupplier(selection.value, year);
      }
    }

    /** The supplier branch of `loadScoreFor`. */
    method ShowSupplier(name: string, year: string)
      modifies this
      ensures display == old(display) + SingleView(LogoFor(name).Some?)
      ensures gauges == Spinner(false, name)
      ensures logoSrc == (if LogoFor(name).Some? then LogoFor(name).value else "")
      ensures loads == old(loads) + [MonthKpisOf(name)] + (if hasCanvas then [MonthlyChartOf(name, year)] else []) + [ScoreOf(name)]
      ensures chart == old(chart) && created == old(created)
      ensures hasCanvas ==> status == Loading && !canvasShown
      ensures !hasCanvas ==> status == old(status) && canvasShown == old(canvasShown)
    {
      gauges := Spinner(false, name);
      var logo := LogoFor(name);
      display := display + SingleView(logo.Some?);
      logoSrc := if logo.Some? then logo.value else "";
      loads := loads + [MonthKpisOf(name)];
      StartChart(name, year);
      loads := loads + [ScoreOf(name)];
    }

    /** The rest of `loadScoreFor` once the scores answer comes: the gauges
        are drawn, then the consolidated KPIs are requested whatever the
        answer was. */
    method ScoresArrived(selection: string, reply: ScoresReply)
      modifies this
      ensures gauges == GaugesFor(selection == "Consolidado", reply)
      ensures loads == old(loads) + [ConsolidatedKpisOf(FornecedoraParam(Some(selection)))]
      ensures display == old(display) && logoSrc == old(logoSrc) && chart == old(chart) && created == old(created)
      ensures status == old(status) && canvasShown == old(canvasShown)
    {
      gauges := GaugesFor(selection == "Consolidado", reply);
      loads := loads + [ConsolidatedKpisOf(FornecedoraParam(Some(selection)))];
    }

    /** The rest of `updateGreenScoreMonthlyChart`: twelve counts update the
        chart in place, or create it when there is none; anything else
        destroys it. */
    method ChartArrived(name: string, year: string, reply: ChartReply)
      requires Valid()
      modifies this
      ensures Valid()
      ensures !hasCanvas ==> chart == old(chart) && created == old(created) && status == old(status) && canvasShown == old(canvasShown)
      ensures hasCanvas && Drawable(reply) ==>
                chart == Some(LineChart(MonthTags, reply.counts.value, "Ativações " + name + " " + year))
                && created == old(created) + (if old(chart).None? then 1 else 0)
                && status == Idle && canvasShown
      ensures hasCanvas && !Drawable(reply) ==>
                chart.None? && created == old(created) && status == (if reply.ChartFailed? then LoadError else NoData)
                && canvasShown == old(canvasShown)
      ensures display == old(display) && logoSrc == old(logoSrc) && gauges == old(gauges) && loads == old(loads)
    {
      if !hasCanvas {
        return;
      }
      if reply.ChartFailed? {
        status := LoadError;
        chart := None;
        return;
      }
      status := Idle;
      if Drawable(reply) {
        var caption := "Ativações " + name + " " + year;
        if chart.Some? {
          chart := Some(chart.value.(labels := MonthTags, values := reply.counts.value, caption := caption));
        } else {
          chart := Some(LineChart(MonthTags, reply.counts.value, caption));
          created := created + 1;
        }
        canvasShown := true;
      } else {
        status := NoData;
        chart := None;
      }
    }

    /** A change of year redraws the chart only for a chosen supplier other
        than 'Consolidado'. */
    method OnYearChange(selection: Option<string>, year: string)
      modifies this
      ensures ModeOf(selection).Single? && hasCanvas ==>
                loads == old(loads) + [MonthlyChartOf(selection.value, year)] && status == Loading && !canvasShown
      ensures !(ModeOf(selection).Single? && hasCanvas) ==>
                loads == old(loads) && status == old(status) && canvasShown == old(canvasShown)
      ensures display == old(display) && logoSrc == old(logoSrc) && gauges == old(gauges)
      ensures chart == old(chart) && created == old(created)
    {
      if selection.Some? && selection.value != "" && selection.value != "Consolidado" {
        StartChart(selection.value, year);
      }
    }
  }

  /** The chart is created once and then reused: two drawable answers in a
      row leave one instance. */
  method TwoDrawsOneChart(p: Page, counts: seq<int>)
    requires p.Valid() && p.hasCanvas && p.chart.None? && |counts| == 12
    modifies p
    ensures p.created == old(p.created) + 1
    ensures p.chart == Some(LineChart(MonthTags, counts, "Ativações RZK 2024"))
  {
    p.ChartArrived("RZK", "2023", ChartCounts(Some(counts)));
    p.ChartArrived("RZK", "2024", ChartCounts(Some(counts)));
    assert "Ativações " + "RZK" + " " + "2024" == "Ativações RZK 2024";
  }
}
