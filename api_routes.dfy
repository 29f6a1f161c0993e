// The JSON endpoints of the dashboard blueprint (backend/routes/api.py): the
// month and year checks, the parsing of the `limit` and `days` parameters,
// the green-score supplier filter, and how each endpoint turns what the
// database layer returns into its reply.
module ApiRoutes {
  import opened Common
  import opened SqlText
  import Dashboard

  /** A reply: a JSON body sent with status 200, or an error status (the
      error bodies carry only a message). */
  datatype Reply<T> = Ok(body: T) | Status(code: int)

  /** A JSON object whose values come from database rows: its members in
      the order the source writes them. */
  type Object = seq<(string, Value)>

  // ------------------------------------------------------------ month and year

  /** `re.match(r'^\d{4}-\d{2}$', s)`: four digits, a dash, two digits, and
      the end of the text, where Python's `$` also matches just before one
      final newline. */
  predicate MonthPattern(s: string)
  {
    (|s| == 7 || (|s| == 8 && s[7] == '\n')) && AllDigits(s[..4]) && s[4] == '-' && AllDigits(s[5..7])
  }

  /** `not month_str or not re.match(...)` rejects; anything else goes on. */
  predicate MonthAccepted(month: Option<string>)
  {
    month.Some? && month.value != "" && MonthPattern(month.value)
  }

  /** The texts the month check lets through are exactly a four-digit and a
      two-digit number joined by a dash, with or without one final newline. */
  lemma MonthAcceptedExact(s: string)
    ensures MonthAccepted(Some(s)) ==>
              var core := PadDigits(DigitsValue(s[..4]), 4) + "-" + PadDigits(DigitsValue(s[5..7]), 2);
              s == core || s == core + "\n"
    ensures forall y: nat, m: nat :: y < 10000 && m < 100 ==>
              MonthAccepted(Some(PadDigits(y, 4) + "-" + PadDigits(m, 2)))
              && MonthAccepted(Some(PadDigits(y, 4) + "-" + PadDigits(m, 2) + "\n"))
  {
    if MonthAccepted(Some(s)) {
      AcceptedMonthCanonical(s);
    }
    forall y: nat, m: nat | y < 10000 && m < 100
      ensures MonthAccepted(Some(PadDigits(y, 4) + "-" + PadDigits(m, 2)))
      ensures MonthAccepted(Some(PadDigits(y, 4) + "-" + PadDigits(m, 2) + "\n"))
    {
      PaddedMonthAccepted(y, m);
    }
  }

  /** An accepted month is its two numbers written back, padded. */
  lemma AcceptedMonthCanonical(s: string)
    requires MonthAccepted(Some(s))
    ensures var core := PadDigits(DigitsValue(s[..4]), 4) + "-" + PadDigits(DigitsValue(s[5..7]), 2);
            s == core || s == core + "\n"
  {
    DigitsCanonical(s[..4]);
    DigitsCanonical(s[5..7]);
    if |s| == 7 {
      assert s == s[..4] + "-" + s[5..7];
    } else {
      assert s == s[..4] + "-" + s[5..7] + "\n";
    }
  }

  /** A padded year and month pass the check, with or without the final
      newline. */
  lemma PaddedMonthAccepted(y: nat, m: nat)
    requires y < 10000 && m < 100
    ensures MonthAccepted(Some(PadDigits(y, 4) + "-" + PadDigits(m, 2)))
    ensures MonthAccepted(Some(PadDigits(y, 4) + "-" + PadDigits(m, 2) + "\n"))
  {
    var core := PadDigits(y, 4) + "-" + PadDigits(m, 2);
    assert core[..4] == PadDigits(y, 4) && core[5..7] == PadDigits(m, 2);
    assert (core + "\n")[..4] == PadDigits(y, 4) && (core + "\n")[5..7] == PadDigits(m, 2);
  }

  /** What the database layer makes of an accepted month: a seven-character
      month selects its window when its year is at least 1, its month lies in
      1..12 and it is not December 9999; a month with the final newline passes
      the check here but not `strptime`, so the database layer falls back to
      its unfiltered query. */
  lemma AcceptedMonthWindow(s: string)
    requires MonthAccepted(Some(s))
    ensures |s| == 8 ==> Dashboard.MonthWindow(Some(s)).None?
    ensures |s| == 7 ==>
              var y := DigitsValue(s[..4]);
              var m := DigitsValue(s[5..7]);
              (Dashboard.MonthWindow(Some(s)).Some? <==> 1 <= y && 1 <= m <= 12 && !(y == 9999 && m == 12))
  {
    if |s| == 7 {
      var t := s[5..];
      assert t == s[5..7];
      ShortDigits(t);
      assert Dashboard.MonthToken(t) <==> 1 <= DigitsValue(t) <= 12;
      if Dashboard.ParseMonth(s).Some? {
        DigitsBound(s[..4]);
        assert Pow10(4) == 10000;
      }
    } else {
      assert |s[5..]| == 3;
    }
  }

  /** `re.match(r'^\d{4}$', s)`, again with the optional final newline. */
  predicate YearPattern(s: string)
  {
    (|s| == 4 || (|s| == 5 && s[4] == '\n')) && AllDigits(s[..4])
  }

  predicate YearAccepted(year: Option<string>)
  {
    year.Some? && year.value != "" && YearPattern(year.value)
  }

  // ------------------------------------------------------------ int()

  /** The digit part `int()` accepts: decimal digits, where a single
      underscore may stand between two of them (`1_000`). */
  predicate Grouped(d: string)
  {
    |d| > 0 && IsDigit(d[0]) && IsDigit(d[|d| - 1])
    && (forall i :: 0 <= i < |d| ==> IsDigit(d[i]) || d[i] == '_')
    && (forall j, i :: 0 <= j < |d| && 0 <= i < j && i == j - 1 && d[j] == '_' ==> d[i] != '_')
  }

  /** The digit part read from its end, a digit at a time, skipping one
      underscore before each digit: the number, or None when `d` is not a
      digit group. */
  function GroupValue(d: string): (r: Option<nat>)
    decreases |d|
  {
    if |d| == 0 || !IsDigit(d[|d| - 1]) then None
    else if |d| == 1 then Some(DigitValue(d[0]))
    else
      var front := d[..|d| - 1];
      var body := if front[|front| - 1] == '_' then front[..|front| - 1] else front;
      match GroupValue(body)
      case None => None
      case Some(v) => Some(10 * v + DigitValue(d[|d| - 1]))
  }

  /** The reading agrees with the description: it succeeds exactly on digit
      groups, and gives the value of the digits once the underscores are
      dropped. */
  lemma GroupValueSpec(d: string)
    ensures GroupValue(d).Some? <==> Grouped(d)
    ensures Grouped(d) ==> AllDigits(RemoveChar(d, '_')) && GroupValue(d).value == DigitsValue(RemoveChar(d, '_'))
  {
    GroupValueAccepts(d);
    if Grouped(d) {
      GroupValueOfGroup(d);
    }
  }

  lemma {:induction false} GroupValueAccepts(d: string)
    ensures GroupValue(d).Some? <==> Grouped(d)
    decreases |d|
  {
    if |d| >= 2 && IsDigit(d[|d| - 1]) {
      var cut := d[|d| - 2] == '_';
      var body := if cut then d[..|d| - 2] else d[..|d| - 1];
      GroupValueStep(d, body, cut);
      GroupValueAccepts(body);
      GroupedStep(d, body, cut);
    }
  }

  lemma {:induction false} GroupValueOfGroup(d: string)
    requires Grouped(d)
    ensures GroupValue(d).Some? && AllDigits(RemoveChar(d, '_')) && GroupValue(d).value == DigitsValue(RemoveChar(d, '_'))
    decreases |d|
  {
    var c := d[|d| - 1];
    if |d| == 1 {
      assert d == [c];
      RemoveCharOne(c, '_');
      assert DigitsValue(d) == DigitValue(c) by {
        assert d[..0] == [];
      }
    } else {
      var cut := d[|d| - 2] == '_';
      var body := if cut then d[..|d| - 2] else d[..|d| - 1];
      GroupedStep(d, body, cut);
      GroupValueOfGroup(body);
      GroupValueStep(d, body, cut);
      RemoveLastDigit(d, body, cut);
      DigitsAppend(RemoveChar(body, '_'), c);
    }
  }

  /** One step of the reading: the last digit, then the rest. */
  lemma GroupValueStep(d: string, body: string, cut: bool)
    requires |d| >= 2 && IsDigit(d[|d| - 1])
    requires cut == (d[|d| - 2] == '_')
    requires body == if cut then d[..|d| - 2] else d[..|d| - 1]
    ensures GroupValue(d) == if GroupValue(body).None? then None else Some(10 * GroupValue(body).value + DigitValue(d[|d| - 1]))
  {
    assert d[..|d| - 1][..|d| - 2] == d[..|d| - 2];
  }

  /** Without underscores, a text is its body without underscores followed
      by its last digit. */
  lemma RemoveLastDigit(d: string, body: string, cut: bool)
    requires |d| >= 2 && IsDigit(d[|d| - 1])
    requires cut == (d[|d| - 2] == '_')
    requires body == if cut then d[..|d| - 2] else d[..|d| - 1]
    ensures RemoveChar(d, '_') == RemoveChar(body, '_') + [d[|d| - 1]]
  {
    var c := d[|d| - 1];
    assert d == d[..|d| - 1] + [c];
    RemoveCharConcat(d[..|d| - 1], [c], '_');
    RemoveCharOne(c, '_');
    if cut {
      assert d[..|d| - 1] == body + "_";
      RemoveCharConcat(body, "_", '_');
      RemoveCharOne('_', '_');
    }
  }

  /** Cutting the last digit, and the underscore before it if there is
      one, keeps a text a digit group and keeps a non-group a non-group. */
  lemma GroupedStep(d: string, body: string, cut: bool)
    requires |d| >= 2 && IsDigit(d[|d| - 1])
    requires cut == (d[|d| - 2] == '_')
    requires body == if cut then d[..|d| - 2] else d[..|d| - 1]
    ensures Grouped(d) <==> Grouped(body)
  {
    var n := |d|;
    if Grouped(d) {
      assert d[0] != '_';
      var m := |body| - 1;
      assert m >= 0;
      assert d[m + 1] == '_' ==> d[m] != '_';
      assert IsDigit(body[m]);
      forall j, i | 0 <= j < |body| && 0 <= i < j && i == j - 1 && body[j] == '_'
        ensures body[i] != '_'
      {
        assert d[j] == '_';
      }
    }
    if Grouped(body) {
      forall k | 0 <= k < n
        ensures IsDigit(d[k]) || d[k] == '_'
      {
        if k < |body| {
          assert d[k] == body[k];
        }
      }
      forall j, i | 0 <= j < n && 0 <= i < j && i == j - 1 && d[j] == '_'
        ensures d[i] != '_'
      {
        if j < |body| {
          assert body[j] == '_';
        } else {
          assert i == |body| - 1 && IsDigit(body[i]);
        }
      }
    }
  }

  /** Appending a digit multiplies the value by ten and adds the digit. */
  lemma DigitsAppend(x: string, c: char)
    requires AllDigits(x) && IsDigit(c)
    ensures AllDigits(x + [c]) && DigitsValue(x + [c]) == 10 * DigitsValue(x) + DigitValue(c)
  {
    assert (x + [c])[..|x|] == x;
  }

  /** Plain digits read as their value. */
  lemma {:induction false} GroupValueOfDigits(d: string)
    requires |d| > 0 && AllDigits(d)
    ensures GroupValue(d) == Some(DigitsValue(d))
    decreases |d|
  {
    if |d| >= 2 {
      var body := d[..|d| - 1];
      GroupValueStep(d, body, false);
      GroupValueOfDigits(body);
    }
  }

  /** A run of plain digits is a digit group with no underscore to drop. */
  lemma DigitsGrouped(d: string)
    requires |d| > 0 && AllDigits(d)
    ensures Grouped(d) && RemoveChar(d, '_') == d
  {
    assert '_' !in d;
  }

  /** The text after an optional leading sign. */
  function Unsigned(t: string): string
    requires |t| > 0
  {
    if t[0] == '+' || t[0] == '-' then t[1..] else t
  }

  /** `int()` on text already stripped: an optional sign, then a digit group. */
  function ReadInt(t: string): (r: Option<int>)
    ensures r.Some? ==> |t| > 0
    ensures |t| > 0 && AllDigits(t) ==> r == Some(DigitsValue(t) as int)
  {
    if |t| == 0 then None
    else
      assert AllDigits(t) ==> Unsigned(t) == t && GroupValue(t) == Some(DigitsValue(t)) by {
        if AllDigits(t) {
          GroupValueOfDigits(t);
        }
      }
      match GroupValue(Unsigned(t))
      case None => None
      case Some(v) => Some(if t[0] == '-' then -(v as int) else v as int)
  }

  /** What `int()` accepts and what it answers: an optional sign and a digit
      group, read as the digits without their underscores, negated after a
      minus sign. */
  lemma ReadIntSpec(t: string)
    ensures ReadInt(t).Some? <==> |t| > 0 && Grouped(Unsigned(t))
    ensures ReadInt(t).Some? ==>
              var digits := RemoveChar(Unsigned(t), '_');
              AllDigits(digits) && ReadInt(t).value == if t[0] == '-' then -(DigitsValue(digits) as int) else DigitsValue(digits) as int
  {
    if |t| > 0 {
      GroupValueSpec(Unsigned(t));
    }
  }

  /** `int(s)` on text: surrounding whitespace stripped, an optional sign,
      then decimal digits, a single underscore allowed between two of them;
      anything else raises ValueError (None here). The value is that of the
      digits once the underscores are dropped. */
  function PyInt(s: string): (r: Option<int>)
    ensures r.Some? ==> |Strip(s)| > 0
    ensures AllDigits(Strip(s)) && |Strip(s)| > 0 ==> r == Some(DigitsValue(Strip(s)) as int)
  {
    ReadInt(Strip(s))
  }

  /** Underscores between digits change nothing: a digit group reads as the
      same number as its digits alone. */
  lemma GroupedReadsAsDigits(d: string)
    requires Grouped(d)
    ensures PyInt(d).Some? && PyInt(d) == PyInt(RemoveChar(d, '_'))
  {
    var r := RemoveChar(d, '_');
    assert AllDigits(r) && GroupValue(d) == Some(DigitsValue(r)) by {
      GroupValueSpec(d);
    }
    assert |r| > 0 by {
      assert d == [d[0]] + d[1..];
      RemoveCharConcat([d[0]], d[1..], '_');
      RemoveCharOne(d[0], '_');
    }
    assert PyInt(r) == Some(DigitsValue(r) as int) by {
      ReadUnblank(r);
    }
    assert PyInt(d) == Some(DigitsValue(r) as int) by {
      ReadUnblank(d);
      assert Unsigned(d) == d;
    }
  }

  /** `int("6_0")` is 60, while a doubled, leading or trailing underscore
      is refused. */
  lemma GroupingExamples()
    ensures PyInt("6_0") == Some(60)
    ensures PyInt("6__0") == None && PyInt("_60") == None && PyInt("60_") == None
  {
    ReadsSixty();
    RefusesDoubled();
    RefusesLeading();
    RefusesTrailing();
  }

  /** `int("6_0")` is 60. */
  lemma ReadsSixty()
    ensures PyInt("6_0") == Some(60)
  {
    ReadUnblank("6_0");
    GroupedSixty();
    assert Unsigned("6_0") == "6_0";
  }

  /** A doubled underscore is refused. */
  lemma RefusesDoubled()
    ensures PyInt("6__0") == None
  {
    ReadUnblank("6__0");
    GroupRejects("6__0", "6_");
    assert Unsigned("6__0") == "6__0";
  }

  /** A leading underscore is refused. */
  lemma RefusesLeading()
    ensures PyInt("_60") == None
  {
    ReadUnblank("_60");
    assert GroupValue("") == None;
    GroupRejects("_6", "");
    GroupRejects("_60", "_6");
    assert Unsigned("_60") == "_60";
  }

  /** A trailing underscore is refused. */
  lemma RefusesTrailing()
    ensures PyInt("60_") == None
  {
    ReadUnblank("60_");
    assert GroupValue("60_") == None;
    assert Unsigned("60_") == "60_";
  }

  /** "6_0" reads as sixty. */
  lemma GroupedSixty()
    ensures GroupValue("6_0") == Some(60)
  {
    var d := "6_0";
    assert d[..|d| - 1] == "6_" && "6_"[..1] == "6";
    assert GroupValue("6") == Some(6);
  }

  /** A group whose body before the last digit fails fails too. */
  lemma GroupRejects(d: string, body: string)
    requires |d| > 1 && IsDigit(d[|d| - 1]) && GroupValue(body) == None
    requires var front := d[..|d| - 1]; body == if front[|front| - 1] == '_' then front[..|front| - 1] else front
    ensures GroupValue(d) == None
  {
  }

  /** `str(n)` for a natural number: its decimal digits, no leading zero. */
  function DecimalText(n: nat): (s: string)
    ensures |s| > 0 && AllDigits(s)
    decreases n
  {
    if n < 10 then [DigitChar(n)] else DecimalText(n / 10) + [DigitChar(n % 10)]
  }

  /** `str(n)` for any integer. */
  function IntText(n: int): (s: string)
    ensures |s| > 0
  {
    if n < 0 then "-" + DecimalText(-n) else DecimalText(n)
  }

  lemma {:induction false} DecimalTextValue(n: nat)
    ensures DigitsValue(DecimalText(n)) == n
    decreases n
  {
    if n >= 10 {
      var s := DecimalText(n);
      assert s[..|s| - 1] == DecimalText(n / 10);
      DecimalTextValue(n / 10);
    }
  }

  /** Text with no blank at either end is its own strip. */
  lemma StripUnblank(s: string)
    requires |s| > 0 && !IsSpace(s[0]) && !IsSpace(s[|s| - 1])
    ensures Strip(s) == s
  {
    assert LeadEnd(s, PythonBlanks) == 0;
    assert TrailStart(s, 0, PythonBlanks) == |s|;
  }

  /** Text with no blank at either end is read as it stands. */
  lemma ReadUnblank(s: string)
    requires |s| > 0 && !IsSpace(s[0]) && !IsSpace(s[|s| - 1])
    ensures PyInt(s) == ReadInt(s)
  {
    StripUnblank(s);
  }

  /** A minus sign before digits negates their value. */
  lemma ReadNegative(t: string)
    requires |t| > 1 && t[0] == '-' && AllDigits(t[1..])
    ensures ReadInt(t) == Some(-(DigitsValue(t[1..]) as int))
  {
    GroupValueOfDigits(t[1..]);
  }

  /** `int(str(n)) == n`: parsing reads back every integer written out. */
  lemma IntTextRoundTrip(n: int)
    ensures PyInt(IntText(n)) == Some(n)
  {
    var s := IntText(n);
    if n < 0 {
      var d := DecimalText(-n);
      assert s[0] == '-' && s[1..] == d;
      DecimalTextValue(-n);
      ReadNegative(s);
      assert ReadInt(s) == Some(n);
    } else {
      assert s == DecimalText(n);
      DecimalTextValue(n);
      assert ReadInt(s) == Some(n);
    }
    ReadUnblank(s);
  }

  /** An accepted year always converts, so the ValueError branch of the
      monthly chart cannot be reached. */
  lemma AcceptedYearParses(s: string)
    requires YearAccepted(Some(s))
    ensures PyInt(s) == Some(DigitsValue(s[..4]) as int)
  {
    StripUnblank(s[..4]);
    if |s| == 5 {
      assert s[..|s| - 1] == s[..4];
      assert LeadEnd(s, PythonBlanks) == 0;
      assert TrailStart(s, 0, PythonBlanks) == 4;
      assert Strip(s) == s[..4];
    } else {
      assert s == s[..4];
    }
  }

  // ------------------------------------------------------------ limit and days

  /** The two defaults, "15" and "30", read as 15 and 30. */
  lemma DefaultsParse()
    ensures PyInt("15") == Some(15) && PyInt("30") == Some(30)
  {
    IntTextRoundTrip(15);
    IntTextRoundTrip(30);
    assert IntText(15) == "15" && IntText(30) == "30";
  }

  /** `limit_str = request.args.get('limit', '15')`, then `int(limit_str)`
      with a ValueError giving 15 and a value of 0 or less giving None, which
      the endpoint reads as "no limit". */
  function BarLimit(param: Option<string>): (limit: Option<nat>)
    ensures param.None? ==> limit == Some(15)
    ensures param.Some? && PyInt(param.value).None? ==> limit == Some(15)
    ensures param.Some? && PyInt(param.value).Some? ==>
              (limit.None? <==> PyInt(param.value).value <= 0)
              && (limit.Some? ==> limit.value == PyInt(param.value).value)
    ensures limit.Some? ==> limit.value > 0
  {
    var text := if param.None? then "15" else param.value;
    DefaultsParse();
    match PyInt(text)
    case None => Some(15)
    case Some(n) => if n <= 0 then None else Some(n)
  }

  /** `data_from_db[:limit]` when a limit is set and exceeded, else all of
      it: the rows sent are the first ones, in order, and there are as many
      as the limit allows. */
  function Truncated<T>(rows: seq<T>, limit: Option<nat>): (sent: seq<T>)
    ensures |sent| <= |rows| && sent == rows[..|sent|]
    ensures limit.None? || limit.value == 0 ==> |sent| == |rows|
    ensures limit.Some? && limit.value > 0 ==> |sent| == if |rows| > limit.value then limit.value else |rows|
  {
    if limit.Some? && limit.value > 0 && |rows| > limit.value then rows[..limit.value] else rows
  }

  /** The windows of the overdue chart. */
  const AllowedDays: set<int> := {30, 60, 90, 120}

  /** `int(request.args.get('days', '30'))`, kept when it is one of the
      allowed windows; any other number, and any text that does not parse,
      becomes 30. */
  function DaysParam(param: Option<string>): (days: int)
    ensures days in AllowedDays
    ensures param.Some? && PyInt(param.value).Some? && PyInt(param.value).value in AllowedDays ==>
              days == PyInt(param.value).value
    ensures param.Some? && !(PyInt(param.value).Some? && PyInt(param.value).value in AllowedDays) ==> days == 30
    ensures param.None? ==> days == 30
  {
    var text := if param.None? then "30" else param.value;
    DefaultsParse();
    match PyInt(text)
    case Some(n) => if n in AllowedDays then n else 30
    case None => 30
  }

  // ------------------------------------------------------------ green score filter

  /** The filter as written: `fornecedora_selecionada == '' or
      fornecedora_selecionada.lower() == 'consolidado'` evaluates `.lower()` on
      None when the parameter is absent, which raises AttributeError before
      the endpoint's `try`. */
  function GreenScoreFilterAsWritten(param: Option<string>): (r: Outcome<Option<string>>)
    ensures r.Raised? <==> param.None?
    ensures r.Raised? ==> r.kind == "AttributeError"
    ensures r.Done? ==> (r.value.None? <==> !SupplierFilterApplies(param)) && (r.value.Some? ==> r.value == param)
  {
    if param.None? then Raised("AttributeError")
    else if param.value == "" || Lower(param.value) == "consolidado" then Done(None)
    else Done(param)
  }

  /** The filter as its documentation describes it: an absent or empty
      parameter, or "Consolidado" in any case, means every supplier;
      any other name passes through unchanged. */
  function GreenScoreFilter(param: Option<string>): (r: Option<string>)
    ensures r.None? <==> !SupplierFilterApplies(param)
    ensures r.Some? ==> r == param
  {
    if param.None? || param.value == "" || Lower(param.value) == "consolidado" then None else param
  }

  /** The two agree whenever the parameter is present; they differ only on
      the absent one, where the written filter raises. */
  lemma GreenScoreFilterAgrees(param: Option<string>)
    ensures param.Some? ==> GreenScoreFilterAsWritten(param) == Done(GreenScoreFilter(param))
    ensures param.None? ==> GreenScoreFilterAsWritten(param).Raised? && GreenScoreFilter(param).None?
  {
  }

  // ------------------------------------------------------------ rows to JSON

  /** `{keys[0]: row[0], keys[1]: row[1], ...}`. */
  function RowObject(keys: seq<string>, row: Row): (o: Object)
    requires |row| >= |keys|
    ensures |o| == |keys| && forall j :: 0 <= j < |keys| ==> o[j] == (keys[j], row[j])
  {
    seq(|keys|, j requires 0 <= j < |keys| => (keys[j], row[j]))
  }

  /** The values of an object, in member order. */
  function Values(o: Object): (vs: Row)
    ensures |vs| == |o| && forall j :: 0 <= j < |o| ==> vs[j] == o[j].1
  {
    seq(|o|, j requires 0 <= j < |o| => o[j].1)
  }

  /** A comprehension `[{...: r[0], ...: r[1], ...} for r in rows]` inside a
      `try`: a row too short for the keys raises IndexError (None here);
      otherwise one object per row, in order. */
  function RowsToObjects(keys: seq<string>, rows: seq<Row>): (r: Option<seq<Object>>)
    ensures r.None? <==> exists i :: 0 <= i < |rows| && |rows[i]| < |keys|
    ensures r.Some? ==> |r.value| == |rows|
    ensures r.Some? ==> forall i :: 0 <= i < |rows| ==> |r.value[i]| == |keys|
    ensures r.Some? ==> forall i, j :: 0 <= i < |rows| && 0 <= j < |keys| ==> r.value[i][j] == (keys[j], rows[i][j])
  {
    if forall i :: 0 <= i < |rows| ==> |rows[i]| >= |keys|
    then Some(seq(|rows|, i requires 0 <= i < |rows| => RowObject(keys, rows[i])))
    else None
  }

  /** Reading each object's values back gives the first `|keys|` columns of
      its row: nothing is lost, reordered or mixed between rows. */
  lemma ObjectsRoundTrip(keys: seq<string>, rows: seq<Row>)
    requires RowsToObjects(keys, rows).Some?
    ensures forall i :: 0 <= i < |rows| ==> Values(RowsToObjects(keys, rows).value[i]) == rows[i][..|keys|]
  {
    var objs := RowsToObjects(keys, rows).value;
    forall i | 0 <= i < |rows| ensures Values(objs[i]) == rows[i][..|keys|] {
      assert |rows[i]| >= |keys|;
      var vs := Values(objs[i]);
      assert |vs| == |keys|;
      forall j | 0 <= j < |keys| ensures vs[j] == rows[i][j] {
        assert objs[i][j] == (keys[j], rows[i][j]);
      }
    }
  }

  /** Labels and values for Chart.js. */
  datatype Chart = Chart(labels: seq<Value>, data: seq<Value>)

  /** `labels = [item[0] for item in rows]`, `data = [item[1] for item in
      rows]`: a row with fewer than two columns raises IndexError (None). */
  function ChartOf(rows: seq<Row>): (c: Option<Chart>)
    ensures c.None? <==> exists i :: 0 <= i < |rows| && |rows[i]| < 2
    ensures c.Some? ==> |c.value.labels| == |rows| && |c.value.data| == |rows|
    ensures c.Some? ==> forall i :: 0 <= i < |rows| ==> c.value.labels[i] == rows[i][0] && c.value.data[i] == rows[i][1]
  {
    if forall i :: 0 <= i < |rows| ==> |rows[i]| >= 2
    then Some(Chart(seq(|rows|, i requires 0 <= i < |rows| => rows[i][0]),
                    seq(|rows|, i requires 0 <= i < |rows| => rows[i][1])))
    else None
  }

  /** The rows back from a chart: label i paired with value i. */
  function ChartPairs(c: Chart): (pairs: seq<Row>)
    requires |c.labels| == |c.data|
    ensures |pairs| == |c.labels| && forall i :: 0 <= i < |pairs| ==> pairs[i] == [c.labels[i], c.data[i]]
  {
    seq(|c.labels|, i requires 0 <= i < |c.labels| => [c.labels[i], c.data[i]])
  }

  /** For two-column rows, splitting into labels and values and pairing them
      again gives the rows back. */
  lemma ChartRoundTrip(rows: seq<Row>)
    requires forall i :: 0 <= i < |rows| ==> |rows[i]| == 2
    ensures ChartOf(rows).Some? && ChartPairs(ChartOf(rows).value) == rows
  {
    var pairs := ChartPairs(ChartOf(rows).value);
    forall i | 0 <= i < |rows| ensures pairs[i] == rows[i] {
      assert pairs[i] == [rows[i][0], rows[i][1]];
    }
  }

  // ------------------------------------------------------------ typed rows

  /** The tuple a summary function returns, as a row. */
  function SummaryRows(s: seq<Dashboard.Summary>): (rows: seq<Row>)
    ensures |rows| == |s| && forall i :: 0 <= i < |s| ==> rows[i] == [s[i].name, Int(s[i].clients), Int(s[i].consumption)]
  {
    seq(|s|, i requires 0 <= i < |s| => [s[i].name, Int(s[i].clients), Int(s[i].consumption)])
  }

  function SliceRows(s: seq<Dashboard.PieSlice>): (rows: seq<Row>)
    ensures |rows| == |s| && forall i :: 0 <= i < |s| ==> rows[i] == [s[i].name, Int(s[i].clients)]
  {
    seq(|s|, i requires 0 <= i < |s| => [s[i].name, Int(s[i].clients)])
  }

  function StateRows(s: seq<Dashboard.StateEntry>): (rows: seq<Row>)
    ensures |rows| == |s| && forall i :: 0 <= i < |s| ==> rows[i] == [s[i].uf, Int(s[i].clients), Int(s[i].consumption)]
  {
    seq(|s|, i requires 0 <= i < |s| => [s[i].uf, Int(s[i].clients), Int(s[i].consumption)])
  }

  // ------------------------------------------------------------ replies

  /** The key each summary endpoint puts the group's name under. */
  datatype Grouping = BySupplier | ByRegion

  function NameKey(g: Grouping): string
  {
    if g == BySupplier then "fornecedora" else "concessionaria"
  }

  /** A summary endpoint's reply for what the database layer answered:
      500 for None; otherwise one object per summary, in order, holding its
      name, client count and consumption (an empty list when there is none). */
  function SummaryReply(g: Grouping, fetched: Option<seq<Dashboard.Summary>>): (r: Reply<seq<Object>>)
    ensures r == Status(500) <==> fetched.None?
    ensures r.Ok? ==>
              var s := fetched.value;
              |r.body| == |s|
              && forall i :: 0 <= i < |s| ==>
                   r.body[i] == [(NameKey(g), s[i].name), ("qtd_clientes", Int(s[i].clients)), ("soma_consumo", Int(s[i].consumption))]
  {
    match fetched
    case None => Status(500)
    case Some(s) =>
      var keys := [NameKey(g), "qtd_clientes", "soma_consumo"];
      var rows := SummaryRows(s);
      match RowsToObjects(keys, rows)
      case Some(objs) =>
        assert forall i :: 0 <= i < |s| ==> objs[i] == [(keys[0], rows[i][0]), (keys[1], rows[i][1]), (keys[2], rows[i][2])];
        Ok(objs)
      case None => assert false; Status(500)
  }

  /** The chart endpoints' common tail: None → 500, no rows → empty labels
      and data, otherwise the first rows the limit allows split into labels
      and values (a row too short → 500). */
  function ChartReply(fetched: Option<seq<Row>>, limit: Option<nat>): (r: Reply<Chart>)
    ensures fetched.None? ==> r == Status(500)
    ensures fetched.Some? ==>
              var sent := Truncated(fetched.value, limit);
              (r == Status(500) <==> exists i :: 0 <= i < |sent| && |sent[i]| < 2)
              && (r.Ok? ==> |r.body.labels| == |sent| == |r.body.data|
                            && forall i :: 0 <= i < |sent| ==> r.body.labels[i] == sent[i][0] && r.body.data[i] == sent[i][1])
  {
    match fetched
    case None => Status(500)
    case Some(rows) =>
      if |rows| == 0 then Ok(Chart([], []))
      else match ChartOf(Truncated(rows, limit))
        case None => Status(500)
        case Some(c) => Ok(c)
  }

  // ------------------------------------------------------------ endpoints

  /** `/summary/fornecedora`: the supplier summary, one object per supplier. */
  function SupplierSummaryEndpoint(db: Query -> seq<Row>, month: Option<string>): (r: Reply<seq<Object>>)
    ensures !MonthAccepted(month) ==> r == Status(400)
    ensures MonthAccepted(month) ==>
              var fetched := Dashboard.SupplierSummary(db, month);
              (r == Status(500) <==> fetched.None?)
              && (r.Ok? ==> |r.body| == |fetched.value|
                            && forall i :: 0 <= i < |r.body| ==>
                                 r.body[i] == [(NameKey(BySupplier), fetched.value[i].name), ("qtd_clientes", Int(fetched.value[i].clients)),
                                               ("soma_consumo", Int(fetched.value[i].consumption))])
  {
    if !MonthAccepted(month) then Status(400)
    else SummaryReply(BySupplier, Dashboard.SupplierSummary(db, month))
  }

  /** `/summary/concessionaria`: the region summary, one object per region. */
  function RegionSummaryEndpoint(db: Query -> seq<Row>, month: Option<string>): (r: Reply<seq<Object>>)
    ensures !MonthAccepted(month) ==> r == Status(400)
    ensures MonthAccepted(month) ==>
              var fetched := Dashboard.RegionSummary(db, month);
              (r == Status(500) <==> fetched.None?)
              && (r.Ok? ==> |r.body| == |fetched.value|
                            && forall i :: 0 <= i < |r.body| ==>
                                 r.body[i] == [(NameKey(ByRegion), fetched.value[i].name), ("qtd_clientes", Int(fetched.value[i].clients)),
                                               ("soma_consumo", Int(fetched.value[i].consumption))])
  {
    if !MonthAccepted(month) then Status(400)
    else SummaryReply(ByRegion, Dashboard.RegionSummary(db, month))
  }

  /** `/map-data/state-summary`: one `{'uf', 'count', 'sum_consumo'}` object
      per state entry, in order. The state map never answers None, so the
      endpoint's 500 branch is not reachable. */
  function MapEndpoint(db: Query -> seq<Row>): (r: Reply<seq<Object>>)
    ensures r.Ok?
    ensures var e := Dashboard.StateMapData(db);
            |r.body| == |e|
            && forall i :: 0 <= i < |e| ==>
                 r.body[i] == [("uf", e[i].uf), ("count", Int(e[i].clients)), ("sum_consumo", Int(e[i].consumption))]
  {
    MapReply(Dashboard.StateMapData(db))
  }

  function MapReply(e: seq<Dashboard.StateEntry>): (r: Reply<seq<Object>>)
    ensures r.Ok? && |r.body| == |e|
    ensures forall i :: 0 <= i < |e| ==>
              r.body[i] == [("uf", e[i].uf), ("count", Int(e[i].clients)), ("sum_consumo", Int(e[i].consumption))]
  {
    var keys := ["uf", "count", "sum_consumo"];
    var rows := StateRows(e);
    match RowsToObjects(keys, rows)
    case Some(objs) =>
      assert forall i :: 0 <= i < |e| ==> objs[i] == [(keys[0], rows[i][0]), (keys[1], rows[i][1]), (keys[2], rows[i][2])];
      Ok(objs)
    case None => assert false; Status(500)
  }

  // ------------------------------------------------------------ KPI endpoints

  /** The three KPI endpoints, by the dashboard function each one calls. */
  datatype Kpi = TotalKwh | ActiveClients | RegisteredClients

  /** The key of each endpoint's JSON answer. */
  function KpiKey(k: Kpi): string
  {
    match k
    case TotalKwh => "total_kwh"
    case ActiveClients => "clientes_ativos_count"
    case RegisteredClients => "clientes_registrados_count"
  }

  /** The query behind each KPI for a month. */
  function KpiQuery(k: Kpi, month: string): Query
  {
    match k
    case TotalKwh => Dashboard.ConsumoQuery(Some(month))
    case ActiveClients => Dashboard.ActiveQuery(Some(month))
    case RegisteredClients => Dashboard.RegisteredQuery(Some(month))
  }

  /** The KPI's number for a month, as the dashboard query module computes
      it (never raising: it answers 0 on its own errors). */
  function KpiNumber(k: Kpi, db: Query -> seq<Row>, month: string): (v: Value)
    ensures v.Int?
    ensures |ExecuteQuery(db, KpiQuery(k, month))| == 0 ==> v == Int(0)
  {
    match k
    case TotalKwh => Int(Dashboard.TotalConsumo(db, Some(month)))
    case ActiveClients => Int(Dashboard.ActiveCount(db, Some(month)))
    case RegisteredClients => Int(Dashboard.RegisteredCount(db, Some(month)))
  }

  /** The dashboard KPI functions declare the single parameter `month_str`. */
  const KpiParameters: seq<string> := ["month_str"]

  /** The keywords the KPI routes pass. */
  const RouteKeywords: seq<string> := ["month_str", "fornecedora_filter"]

  /** A Python call by keyword: a keyword the callee does not declare raises
      TypeError before its body runs; otherwise the call gives the body's
      value. */
  function KeywordCall(declared: seq<string>, passed: seq<string>, body: Value): (r: Outcome<Value>)
    ensures r.Raised? <==> exists k :: k in passed && k !in declared
    ensures r.Raised? ==> r.kind == "TypeError"
    ensures r.Done? ==> r.value == body
  {
    if forall k :: k in passed ==> k in declared then Done(body) else Raised("TypeError")
  }

  /** The KPI endpoints as written: 400 for a rejected month; otherwise the
      KPI function is called with `month_str` and `fornecedora_filter`, and
      500 answers when the call raises. */
  function KpiEndpointAsWritten(k: Kpi, db: Query -> seq<Row>, month: Option<string>): (r: Reply<Object>)
    ensures !MonthAccepted(month) ==> r == Status(400)
  {
    if !MonthAccepted(month) then Status(400)
    else match KeywordCall(KpiParameters, RouteKeywords, KpiNumber(k, db, month.value))
      case Raised(_) => Status(500)
      case Done(v) => Ok([(KpiKey(k), v)])
  }

  /** As written, no request gets a number: the supplier keyword makes every
      call with an accepted month raise TypeError, which becomes 500. */
  lemma KpiAsWrittenAlwaysFails(k: Kpi, db: Query -> seq<Row>, month: Option<string>)
    ensures MonthAccepted(month) ==> KpiEndpointAsWritten(k, db, month) == Status(500)
    ensures !KpiEndpointAsWritten(k, db, month).Ok?
  {
    if MonthAccepted(month) {
      assert RouteKeywords[1] in RouteKeywords && RouteKeywords[1] !in KpiParameters;
    }
  }

  /** The KPI endpoints with the call the dashboard page makes (the month
      only): 400 for a rejected month, otherwise always the KPI's number
      under the endpoint's key, 0 when the month has no rows. */
  function KpiEndpoint(k: Kpi, db: Query -> seq<Row>, month: Option<string>): (r: Reply<Object>)
    ensures !MonthAccepted(month) ==> r == Status(400)
    ensures MonthAccepted(month) ==> r == Ok([(KpiKey(k), KpiNumber(k, db, month.value))])
    ensures MonthAccepted(month) && |ExecuteQuery(db, KpiQuery(k, month.value))| == 0 ==>
              r == Ok([(KpiKey(k), Int(0))])
  {
    if !MonthAccepted(month) then Status(400)
    else match KeywordCall(KpiParameters, ["month_str"], KpiNumber(k, db, month.value))
      case Raised(_) => Status(500)
      case Done(v) => Ok([(KpiKey(k), v)])
  }

  /** `/chart/monthly-active-clients`: 400 unless the year check passes;
      otherwise the twelve monthly counts for that year. */
  function MonthlyEndpoint(db: Query -> seq<Row>, year: Option<string>): (r: Reply<seq<int>>)
    ensures r.Ok? <==> YearAccepted(year)
    ensures !r.Ok? ==> r == Status(400)
    ensures r.Ok? ==> |r.body| == Dashboard.Months
    ensures r.Ok? ==>
              r.body == Dashboard.MonthlyCounts(ExecuteQuery(db, Dashboard.MonthlyQuery(DigitsValue(year.value[..4]))))
  {
    if !YearAccepted(year) then Status(400)
    else
      AcceptedYearParses(year.value);
      match PyInt(year.value)
      case None => Status(400)
      case Some(y) => Ok(Dashboard.MonthlyCounts(ExecuteQuery(db, Dashboard.MonthlyQuery(y))))
  }

  /** `/pie/clientes-fornecedora`: every supplier's name and client count
      from the supplier summary. */
  function PieEndpoint(db: Query -> seq<Row>, month: Option<string>): (r: Reply<Chart>)
    ensures !MonthAccepted(month) ==> r == Status(400)
    ensures MonthAccepted(month) ==>
              var fetched := Dashboard.SupplierSummary(db, month);
              (r == Status(500) <==> fetched.None?)
              && (r.Ok? ==> |r.body.labels| == |fetched.value| == |r.body.data|
                            && forall i :: 0 <= i < |fetched.value| ==>
                                 r.body.labels[i] == fetched.value[i].name && r.body.data[i] == Int(fetched.value[i].clients))
  {
    if !MonthAccepted(month) then Status(400)
    else PieReply(Dashboard.SupplierSummary(db, month))
  }

  function PieReply(fetched: Option<seq<Dashboard.Summary>>): (r: Reply<Chart>)
    ensures r == Status(500) <==> fetched.None?
    ensures r.Ok? ==> |r.body.labels| == |fetched.value| == |r.body.data|
                      && forall i :: 0 <= i < |fetched.value| ==>
                           r.body.labels[i] == fetched.value[i].name && r.body.data[i] == Int(fetched.value[i].clients)
  {
    match fetched
    case None => Status(500)
    case Some(s) => ChartReply(Some(SummaryRows(s)), None)
  }

  /** `/bar/clientes-concessionaria`: the regions' client counts, cut to
      the first `limit` of them when a limit is in force. */
  function BarEndpoint(db: Query -> seq<Row>, month: Option<string>, limitParam: Option<string>): (r: Reply<Chart>)
    ensures !MonthAccepted(month) ==> r == Status(400)
    ensures MonthAccepted(month) ==>
              var fetched := Dashboard.RegionPie(db, month);
              (r == Status(500) <==> fetched.None?)
              && (r.Ok? ==>
                    var s := Truncated(fetched.value, BarLimit(limitParam));
                    |r.body.labels| == |s| == |r.body.data|
                    && forall i :: 0 <= i < |s| ==> r.body.labels[i] == s[i].name && r.body.data[i] == Int(s[i].clients))
  {
    if !MonthAccepted(month) then Status(400)
    else BarReply(Dashboard.RegionPie(db, month), BarLimit(limitParam))
  }

  function BarReply(fetched: Option<seq<Dashboard.PieSlice>>, limit: Option<nat>): (r: Reply<Chart>)
    ensures r == Status(500) <==> fetched.None?
    ensures r.Ok? ==>
              var s := Truncated(fetched.value, limit);
              |r.body.labels| == |s| == |r.body.data|
              && forall i :: 0 <= i < |s| ==> r.body.labels[i] == s[i].name && r.body.data[i] == Int(s[i].clients)
  {
    match fetched
    case None => Status(500)
    case Some(s) =>
      var rows := SliceRows(s);
      assert Truncated(rows, limit) == SliceRows(Truncated(s, limit));
      ChartReply(Some(rows), limit)
  }

  /** `/chart/overdue-payments`: the overdue counts for the window the
      `days` parameter selects, always one of 30, 60, 90 and 120 days. */
  function OverdueEndpoint(daysParam: Option<string>, overdue: int -> Option<seq<Row>>): (r: Reply<Chart>)
    ensures var fetched := overdue(DaysParam(daysParam));
            r == Status(500) <==> fetched.None? || exists i :: 0 <= i < |fetched.value| && |fetched.value[i]| < 2
    ensures var fetched := overdue(DaysParam(daysParam));
            r.Ok? ==> fetched.Some? && |r.body.labels| == |fetched.value| == |r.body.data|
                      && forall i :: 0 <= i < |fetched.value| ==>
                           2 <= |fetched.value[i]| && r.body.labels[i] == fetched.value[i][0] && r.body.data[i] == fetched.value[i][1]
  {
    var fetched := overdue(DaysParam(daysParam));
    assert fetched.Some? ==> Truncated(fetched.value, None) == fetched.value;
    ChartReply(fetched, None)
  }

  /** `/summary/fornecedora-no-rcb`: 500 on None; otherwise the list sent
      under "data", one object per row (a row shorter than three columns
      raises inside the `try` → 500). */
  function NoRcbEndpoint(fetched: Option<seq<Row>>): (r: Reply<seq<Object>>)
    ensures fetched.None? ==> r == Status(500)
    ensures fetched.Some? ==>
              (r == Status(500) <==> exists i :: 0 <= i < |fetched.value| && |fetched.value[i]| < 3)
              && (r.Ok? ==> |r.body| == |fetched.value|
                            && forall i :: 0 <= i < |r.body| ==>
                                 r.body[i] == [("fornecedora", fetched.value[i][0]), ("numero_clientes", fetched.value[i][1]),
                                               ("soma_consumomedio", fetched.value[i][2])])
  {
    match fetched
    case None => Status(500)
    case Some(rows) =>
      var keys := ["fornecedora", "numero_clientes", "soma_consumomedio"];
      match RowsToObjects(keys, rows)
      case None => Status(500)
      case Some(objs) =>
        assert forall i :: 0 <= i < |rows| ==> objs[i] == [(keys[0], rows[i][0]), (keys[1], rows[i][1]), (keys[2], rows[i][2])];
        Ok(objs)
  }

  /** The green score reply once the filter is known. */
  function ScoreReply(fetched: Option<seq<Row>>): (r: Reply<seq<Object>>)
    ensures fetched.None? ==> r == Status(500)
    ensures fetched.Some? ==>
              (r == Status(500) <==> exists i :: 0 <= i < |fetched.value| && |fetched.value[i]| < 2)
              && (r.Ok? ==> |r.body| == |fetched.value|
                            && forall i :: 0 <= i < |r.body| ==>
                                 r.body[i] == [("fornecedora", fetched.value[i][0]), ("score", fetched.value[i][1])])
  {
    match fetched
    case None => Status(500)
    case Some(rows) =>
      var keys := ["fornecedora", "score"];
      match RowsToObjects(keys, rows)
      case None => Status(500)
      case Some(objs) =>
        assert forall i :: 0 <= i < |rows| ==> objs[i] == [(keys[0], rows[i][0]), (keys[1], rows[i][1])];
        Ok(objs)
  }

  /** `/scores/green-score` as written: an absent parameter raises outside
      the `try`, which Flask answers with 500. */
  function GreenScoreEndpointAsWritten(param: Option<string>, scores: Option<string> -> Option<seq<Row>>): (r: Reply<seq<Object>>)
    ensures param.None? ==> r == Status(500)
    ensures param.Some? ==> r == ScoreReply(scores(GreenScoreFilter(param)))
  {
    match GreenScoreFilterAsWritten(param)
    case Raised(_) => Status(500)
    case Done(f) => ScoreReply(scores(f))
  }

  /** `/scores/green-score` with the documented filter: the scores function
      is asked for one supplier exactly when the shared supplier rule applies
      to the parameter, and for all of them otherwise. */
  function GreenScoreEndpoint(param: Option<string>, scores: Option<string> -> Option<seq<Row>>): (r: Reply<seq<Object>>)
    ensures r == ScoreReply(scores(if SupplierFilterApplies(param) then param else None))
  {
    ScoreReply(scores(GreenScoreFilter(param)))
  }

  /** With no parameter the written endpoint fails even when the consolidated
      scores are there to send, while the documented one sends them. */
  lemma AbsentSupplierFails(scores: Option<string> -> Option<seq<Row>>)
    requires scores(None).Some?
    requires forall i :: 0 <= i < |scores(None).value| ==> |scores(None).value[i]| >= 2
    ensures GreenScoreEndpointAsWritten(None, scores) == Status(500)
    ensures GreenScoreEndpoint(None, scores).Ok?
  {
  }
}
