// The report page and the spreadsheet export route (backend/routes/reports.py):
// the supplier drop-down, the formula-injection sanitisers, the sheet title
// and which export builds which workbook.
module ReportsRoutes {
  import opened Common
  import opened SqlText

  // ------------------------------------------------------------ supplier list

  /** `[f for f in names if f != x]`: the names other than `x`, in order. */
  function Without(names: seq<string>, x: string): (r: seq<string>)
    ensures x !in r
    ensures forall n :: n in r ==> n in names
    ensures forall n :: n in names && n != x ==> n in r
    ensures |r| <= |names|
  {
    if |names| == 0 then []
    else if names[0] == x then Without(names[1..], x)
    else [names[0]] + Without(names[1..], x)
  }

  /** `['Consolidado'] + [f for f in fornecedoras_db if f != 'Consolidado']`. */
  function SupplierOptions(names: seq<string>): (r: seq<string>)
    ensures |r| > 0 && r[0] == "Consolidado"
    ensures multiset(r)["Consolidado"] == 1
    ensures forall n :: n in names ==> n in r
    ensures forall n :: n in r ==> n == "Consolidado" || n in names
  {
    var rest := Without(names, "Consolidado");
    assert multiset(rest)["Consolidado"] == 0;
    ["Consolidado"] + rest
  }

  // ------------------------------------------------------------ sanitisers

  /** `"CS" in s and "FUN" in s`. */
  predicate Suspicious(s: string)
  {
    Contains(s, "CS") && Contains(s, "FUN")
  }

  /** `s.startswith(('=', '+', '-', '@')) and len(s) > 1`. */
  predicate FormulaLike(s: string)
  {
    |s| > 1 && (s[0] == '=' || s[0] == '+' || s[0] == '-' || s[0] == '@')
  }

  /** Text a spreadsheet will not read as a formula, and that the sanitiser
      has nothing to replace in. */
  predicate Safe(s: string)
  {
    !Suspicious(s) && !FormulaLike(s)
  }

  /** A leading apostrophe neither creates nor hides an occurrence of a
      pattern that does not start with one. */
  lemma QuoteKeepsContains(s: string, t: string)
    requires |t| > 0 && t[0] != '\''
    ensures Contains("'" + s, t) <==> Contains(s, t)
  {
    var q := "'" + s;
    if Contains(s, t) {
      var i :| 0 <= i <= |s| && OccursAt(s, t, i);
      assert q[i + 1..i + 1 + |t|] == s[i..i + |t|];
      assert OccursAt(q, t, i + 1);
    }
    if Contains(q, t) {
      var i :| 0 <= i <= |q| && OccursAt(q, t, i);
      assert q[i..i + |t|][0] == t[0];
      assert i != 0;
      assert s[i - 1..i - 1 + |t|] == q[i..i + |t|];
      assert OccursAt(s, t, i - 1);
    }
  }

  /** A text without the pattern's first character does not contain it. */
  lemma MissingFirstChar(s: string, t: string)
    requires |t| > 0 && t[0] !in s
    ensures !Contains(s, t)
  {
    forall i | 0 <= i <= |s| ensures !OccursAt(s, t, i) {
      if i + |t| <= |s| {
        assert s[i..i + |t|][0] == s[i];
      }
    }
  }

  /** One text through a sanitiser whose replacement is `replacement`:
      suspicious text becomes the replacement; otherwise formula-like text
      gains a leading apostrophe and any other text is kept. With a safe
      replacement the result is always safe. */
  function SanitizeText(s: string, replacement: string): (r: string)
    ensures Suspicious(s) ==> r == replacement
    ensures !Suspicious(s) ==> r == s || r == "'" + s
    ensures Safe(s) ==> r == s
    ensures Safe(replacement) ==> Safe(r)
  {
    if Suspicious(s) then replacement
    else if FormulaLike(s) then
      QuoteKeepsContains(s, "CS");
      QuoteKeepsContains(s, "FUN");
      "'" + s
    else s
  }

  /** The two replacements are safe themselves. */
  const DataReplacement: string := "[DADOS_SANITIZADOS]"
  const HeaderReplacement: string := "COLUNA_SANITIZADA"

  lemma ReplacementsSafe()
    ensures Safe(DataReplacement) && Safe(HeaderReplacement)
  {
    MissingFirstChar(DataReplacement, "CS");
    MissingFirstChar(HeaderReplacement, "FUN");
  }

  /** `sanitize_excel_data_extreme` on one cell: strings go through the
      rules, anything else is kept. */
  function SanitizeCell(v: Value): (r: Value)
    ensures !v.Text? ==> r == v
    ensures v.Text? ==> r.Text? && Safe(r.s)
  {
    ReplacementsSafe();
    match v
    case Text(s) => Text(SanitizeText(s, DataReplacement))
    case _ => v
  }

  function SanitizeRow(row: Row): (r: Row)
    ensures |r| == |row| && forall j :: 0 <= j < |row| ==> r[j] == SanitizeCell(row[j])
  {
    seq(|row|, j requires 0 <= j < |row| => SanitizeCell(row[j]))
  }

  /** The sanitised data: as many rows as before, each as long as before,
      every cell sanitised on its own. */
  function SanitizeData(data: seq<Row>): (r: seq<Row>)
    ensures |r| == |data| && forall i :: 0 <= i < |data| ==> r[i] == SanitizeRow(data[i])
  {
    seq(|data|, i requires 0 <= i < |data| => SanitizeRow(data[i]))
  }

  /** `sanitize_headers_extreme` on the header texts. */
  function SanitizeHeaders(headers: seq<string>): (r: seq<string>)
    ensures |r| == |headers|
    ensures forall i :: 0 <= i < |headers| ==> r[i] == SanitizeText(headers[i], HeaderReplacement) && Safe(r[i])
  {
    ReplacementsSafe();
    seq(|headers|, i requires 0 <= i < |headers| => SanitizeText(headers[i], HeaderReplacement))
  }

  /** Every text the data sanitiser leaves is safe, and nothing else changes
      shape or kind. */
  lemma SanitizedDataSafe(data: seq<Row>)
    ensures forall i, j :: 0 <= i < |data| && 0 <= j < |data[i]| ==>
              var c := SanitizeData(data)[i][j];
              (c.Text? <==> data[i][j].Text?) && (c.Text? ==> Safe(c.s)) && (!c.Text? ==> c == data[i][j])
  {
  }

  /** A second pass changes nothing. */
  lemma SanitizeDataIdempotent(data: seq<Row>)
    ensures SanitizeData(SanitizeData(data)) == SanitizeData(data)
  {
    var once := SanitizeData(data);
    forall i | 0 <= i < |data| ensures SanitizeRow(once[i]) == once[i] {
      forall j | 0 <= j < |once[i]| ensures SanitizeCell(once[i][j]) == once[i][j] {
      }
    }
  }

  lemma SanitizeHeadersIdempotent(headers: seq<string>)
    ensures SanitizeHeaders(SanitizeHeaders(headers)) == SanitizeHeaders(headers)
  {
  }

  /** The data sanitiser as the source runs it: an outer loop over the rows
      and an inner loop over each row's cells, appending as it goes. */
  method SanitizeExcelData(data: seq<Row>) returns (sanitized: seq<Row>)
    ensures sanitized == SanitizeData(data)
  {
    sanitized := [];
    var i := 0;
    while i < |data|
      invariant 0 <= i <= |data|
      invariant sanitized == SanitizeData(data[..i])
    {
      var row := data[i];
      var sanitizedRow: Row := [];
      var j := 0;
      while j < |row|
        invariant 0 <= j <= |row|
        invariant sanitizedRow == SanitizeRow(row[..j])
      {
        var cell := row[j];
        if cell.Text? {
          if Suspicious(cell.s) {
            sanitizedRow := sanitizedRow + [Text(DataReplacement)];
          } else if FormulaLike(cell.s) {
            sanitizedRow := sanitizedRow + [Text("'" + cell.s)];
          } else {
            sanitizedRow := sanitizedRow + [cell];
          }
        } else {
          sanitizedRow := sanitizedRow + [cell];
        }
        j := j + 1;
      }
      assert row[..j] == row;
      sanitized := sanitized + [sanitizedRow];
      i := i + 1;
    }
    assert data[..i] == data;
  }

  /** The header sanitiser's loop. */
  method SanitizeHeadersExtreme(headers: seq<string>) returns (sanitized: seq<string>)
    ensures sanitized == SanitizeHeaders(headers)
  {
    sanitized := [];
    var i := 0;
    while i < |headers|
      invariant 0 <= i <= |headers|
      invariant sanitized == SanitizeHeaders(headers[..i])
    {
      var header := headers[i];
      if Suspicious(header) {
        sanitized := sanitized + [HeaderReplacement];
      } else if FormulaLike(header) {
        sanitized := sanitized + ["'" + header];
      } else {
        sanitized := sanitized + [header];
      }
      i := i + 1;
    }
    assert headers[..i] == headers;
  }

  // ------------------------------------------------------------ sheet title

  /** The longest sheet name a workbook takes. */
  const MaxTitle: nat := 31

  /** `if len(t) > 31: t = t[:31]`: the title is cut to its first 31
      characters, and a title that fits is kept whole. */
  function SheetTitle(t: string): (r: string)
    ensures |r| <= MaxTitle && |r| <= |t| && r == t[..|r|]
    ensures |t| <= MaxTitle ==> r == t
    ensures |t| > MaxTitle ==> |r| == MaxTitle
  {
    if |t| > MaxTitle then t[..MaxTitle] else t
  }

  /** The supplier part of a single-sheet export's title and file name:
      `secure_filename(s).replace('_', '')` for a supplier the filter rule
      applies to, else "Consolidado". `secure_filename` is a parameter. */
  function SupplierTag(supplier: string, secure: string -> string): (tag: string)
    ensures '_' !in tag
    ensures !SupplierFilterApplies(Some(supplier)) ==> tag == "Consolidado"
  {
    if SupplierFilterApplies(Some(supplier)) then RemoveChar(secure(supplier), '_') else "Consolidado"
  }

  // ------------------------------------------------------------ export

  /** One sheet of a workbook, and what the export route answers: a
      redirect back to the report page, or the workbook to build. */
  datatype Sheet = Sheet(name: string, headers: seq<string>, rows: seq<Row>)
  datatype Export = Redirect | Workbook(sheets: seq<Sheet>)

  /** What the database layer answers for an export: the headers of the
      report, its rows (single-sheet reports), and the two ID lists with the
      details fetched for them (the multi-sheet reports). */
  datatype Fetched = Fetched(headers: seq<string>, rows: seq<Row>,
                             novaIds: seq<int>, enviadaIds: seq<int>,
                             novaRows: seq<Row>, enviadaRows: seq<Row>)

  /** The report types exported as a single sanitised sheet. */
  predicate SingleSheetType(t: string)
  {
    t == "base_clientes" || t == "clientes_por_licenciado" || t == "recebiveis_clientes"
  }

  /** The single-sheet title before truncation. */
  function TitleFor(reportType: string, tag: string): string
  {
    if reportType == "base_clientes" then "Base Clientes (" + tag + ")"
    else if reportType == "clientes_por_licenciado" then "Clientes por Licenciado"
    else "Recebíveis (" + tag + ")"
  }

  /** The two-sheet workbook of the rateio exports: details are fetched
      only for a non-empty ID list, and both lists empty redirect. */
  function TwoSheets(nova: string, enviada: string, f: Fetched): (e: Export)
    ensures e.Redirect? <==> |f.novaIds| == 0 && |f.enviadaIds| == 0
    ensures e.Workbook? ==>
              e.sheets == [Sheet(nova, f.headers, if |f.novaIds| > 0 then f.novaRows else []),
                           Sheet(enviada, f.headers, if |f.enviadaIds| > 0 then f.enviadaRows else [])]
  {
    if |f.novaIds| == 0 && |f.enviadaIds| == 0 then Redirect
    else Workbook([Sheet(nova, f.headers, if |f.novaIds| > 0 then f.novaRows else []),
                   Sheet(enviada, f.headers, if |f.enviadaIds| > 0 then f.enviadaRows else [])])
  }

  /** `exportar_excel_route`: the workbook each report type builds, or the
      redirect. A single-sheet report with no headers or no rows redirects
      and builds nothing; otherwise its one sheet holds the sanitised headers
      and rows under a title of at most 31 characters. The rateio exports
      build two sheets, whose rows are not sanitised. Unknown types
      redirect. */
  function ExportFor(reportType: string, supplier: string, secure: string -> string, f: Fetched): (e: Export)
    ensures !SingleSheetType(reportType) && reportType != "rateio" && reportType != "rateio_rzk" ==> e == Redirect
    ensures SingleSheetType(reportType) ==> (e.Workbook? <==> |f.headers| > 0 && |f.rows| > 0)
    ensures SingleSheetType(reportType) && e.Workbook? ==>
              |e.sheets| == 1 && |e.sheets[0].name| <= MaxTitle
              && e.sheets[0].headers == SanitizeHeaders(f.headers)
              && e.sheets[0].rows == SanitizeData(f.rows)
    ensures reportType == "rateio" ==> e == TwoSheets("Base Nova", "Base Enviada", f)
    ensures reportType == "rateio_rzk" ==> e == TwoSheets("Base Nova RZK", "Base Enviada RZK", f)
  {
    if reportType == "rateio" then TwoSheets("Base Nova", "Base Enviada", f)
    else if reportType == "rateio_rzk" then TwoSheets("Base Nova RZK", "Base Enviada RZK", f)
    else if SingleSheetType(reportType) then
      if |f.headers| == 0 then Redirect
      else
        var title := SheetTitle(TitleFor(reportType, SupplierTag(supplier, secure)));
        if |f.rows| == 0 then Redirect
        else Workbook([Sheet(title, SanitizeHeaders(f.headers), SanitizeData(f.rows))])
    else Redirect
  }

  /** Every text cell and header of a single-sheet workbook is safe. */
  lemma SingleSheetSafe(reportType: string, supplier: string, secure: string -> string, f: Fetched)
    requires SingleSheetType(reportType) && ExportFor(reportType, supplier, secure, f).Workbook?
    ensures var s := ExportFor(reportType, supplier, secure, f).sheets[0];
            (forall k :: 0 <= k < |s.headers| ==> Safe(s.headers[k]))
            && forall i, j :: 0 <= i < |s.rows| && 0 <= j < |s.rows[i]| && s.rows[i][j].Text? ==> Safe(s.rows[i][j].s)
  {
    SanitizedDataSafe(f.rows);
  }
}
