// The spreadsheet writer of the single-file application (exporter.py): a
// worksheet is a grid of text cells that the export methods fill row by
// row and then format (frozen header, auto-filter, column widths from a
// sample, a colour scale on the "Nome" column).
module Exporter {
  import opened Common
  import opened SqlText
  import ApiRoutes

  // ------------------------------------------------------------ cell text

  /** `str(d)` for a date: year, month and day zero-padded and joined by '-'. */
  function DateText(d: Date): (s: string)
    ensures |s| >= 10 && s[|s| - 3] == '-'
  {
    var y := if d.year < 0 then 0 else d.year;
    var m := if d.month < 0 then 0 else d.month;
    var dd := if d.day < 0 then 0 else d.day;
    var t := PadDigits(y, 4) + "-" + PadDigits(m, 2) + "-" + PadDigits(dd, 2);
    assert |PadDigits(dd, 2)| >= 2;
    t
  }

  /** The elements of `str(list)` after the opening bracket. */
  function IdsTail(ids: seq<int>): (s: string)
    ensures |s| > 0 && s[|s| - 1] == ']'
  {
    if ids == [] then "]"
    else if |ids| == 1 then ApiRoutes.IntText(ids[0]) + "]"
    else ApiRoutes.IntText(ids[0]) + ", " + IdsTail(ids[1..])
  }

  /** `str(v)` for a database value. */
  function PyStr(v: Value): (s: string)
    ensures v.Null? ==> s == "None"
    ensures v.Text? ==> s == v.s
    ensures v.Int? ==> s == ApiRoutes.IntText(v.n)
    ensures v.Ids? ==> |s| >= 2 && s[0] == '[' && s[|s| - 1] == ']'
  {
    match v
    case Null => "None"
    case Text(t) => t
    case Int(n) => ApiRoutes.IntText(n)
    case Ids(ids) => "[" + IdsTail(ids)
    case Day(d) => DateText(d)
  }

  /** An integer is written as text that `int()` reads back as it. */
  lemma PyStrIntReadsBack(n: int)
    ensures ApiRoutes.PyInt(PyStr(Int(n))) == Some(n)
  {
    ApiRoutes.IntTextRoundTrip(n);
  }

  /** A data cell as this exporter writes it: `str(v)`, except that None is
      written as the empty text. */
  function CellText(v: Value): (s: string)
    ensures v.Null? ==> s == ""
    ensures !v.Null? ==> s == PyStr(v)
  {
    if v.Null? then "" else PyStr(v)
  }

  /** A data row as written: each value through CellText. */
  function RenderRow(row: Row): (r: seq<string>)
    ensures |r| == |row|
    ensures forall i :: 0 <= i < |row| ==> r[i] == CellText(row[i])
  {
    if row == [] then [] else RenderRow(row[..|row| - 1]) + [CellText(row[|row| - 1])]
  }

  /** The data rows as written, in order. */
  function RenderRows(rows: seq<Row>): (r: seq<seq<string>>)
    ensures |r| == |rows|
    ensures forall i :: 0 <= i < |rows| ==> r[i] == RenderRow(rows[i])
  {
    if rows == [] then [] else RenderRows(rows[..|rows| - 1]) + [RenderRow(rows[|rows| - 1])]
  }

  // ------------------------------------------------------------ illegal characters

  /** openpyxl looks at no more than this many characters of a cell text
      (it cuts a longer text to this length before checking it). */
  const CellLimit: nat := 32767

  /** The control characters openpyxl refuses in a cell with
      IllegalCharacterError: U+0000 to U+0008, U+000B, U+000C and U+000E
      to U+001F (tab, line feed and carriage return are allowed). */
  predicate IllegalChar(c: char)
  {
    c <= '\U{0008}' || c == '\U{000B}' || c == '\U{000C}' || '\U{000E}' <= c <= '\U{001F}'
  }

  /** openpyxl takes the text into a cell: none of its first CellLimit
      characters is illegal. */
  predicate TextAccepted(s: string)
  {
    forall i :: 0 <= i < |s| && i < CellLimit ==> !IllegalChar(s[i])
  }

  /** Every text of a row is taken. */
  predicate RowAccepted(texts: seq<string>)
  {
    forall i :: 0 <= i < |texts| ==> TextAccepted(texts[i])
  }

  /** The position of the first row openpyxl refuses; |rows| when it takes
      them all. */
  function FirstRejected(rows: seq<seq<string>>): (j: nat)
    ensures j <= |rows|
    decreases |rows|
  {
    if rows == [] || !RowAccepted(rows[0]) then 0 else 1 + FirstRejected(rows[1..])
  }

  /** A sheet's headers and data rows are all taken. */
  predicate SheetAccepted(headers: seq<string>, data: seq<Row>)
  {
    RowAccepted(headers) && FirstRejected(RenderRows(data)) == |data|
  }

  /** Characters past the limit are never looked at. */
  lemma PastLimitIgnored(s: string, tail: string)
    requires |s| >= CellLimit && TextAccepted(s)
    ensures TextAccepted(s + tail)
  {
    forall i | 0 <= i < |s + tail| && i < CellLimit
      ensures !IllegalChar((s + tail)[i])
    {
      assert (s + tail)[i] == s[i];
    }
  }

  /** Every row before FirstRejected is taken, and the row there, if any,
      is refused. */
  lemma {:induction false} FirstRejectedSpec(rows: seq<seq<string>>)
    ensures forall k :: 0 <= k < FirstRejected(rows) ==> RowAccepted(rows[k])
    ensures FirstRejected(rows) < |rows| ==> !RowAccepted(rows[FirstRejected(rows)])
    decreases |rows|
  {
    if rows != [] && RowAccepted(rows[0]) {
      FirstRejectedSpec(rows[1..]);
      forall k | 0 < k < FirstRejected(rows)
        ensures RowAccepted(rows[k])
      {
        assert rows[k] == rows[1..][k - 1];
      }
    }
  }

  /** A row scanned past the taken rows is the first refused one exactly
      when openpyxl refuses it. */
  lemma FirstRejectedScan(rows: seq<seq<string>>, i: nat)
    requires i < |rows| && FirstRejected(rows) >= i
    ensures RowAccepted(rows[i]) ==> FirstRejected(rows) > i
    ensures !RowAccepted(rows[i]) ==> FirstRejected(rows) == i
  {
    FirstRejectedSpec(rows);
  }

  /** Accented text with tabs and line feeds is taken; a bell character is
      refused. */
  lemma AcceptanceExamples()
    ensures TextAccepted("Jo\U{00E3}o\tSilva\n")
    ensures !TextAccepted("Jo\U{0007}o")
  {
    assert IllegalChar("Jo\U{0007}o"[2]);
  }

  // ------------------------------------------------------------ column letters

  /** `get_column_letter(n)`: bijective base 26, 1 -> "A", 26 -> "Z",
      27 -> "AA". */
  function ColumnLetter(n: nat): (s: string)
    requires n >= 1
    ensures |s| >= 1 && forall i :: 0 <= i < |s| ==> IsUpper(s[i])
    decreases n
  {
    if n <= 26 then [('A' as int + n - 1) as char]
    else ColumnLetter((n - 1) / 26) + [('A' as int + (n - 1) % 26) as char]
  }

  /** The column number a run of capital letters names. */
  function ColumnNumber(s: string): int
  {
    if s == [] then 0 else ColumnNumber(s[..|s| - 1]) * 26 + (s[|s| - 1] as int - 'A' as int + 1)
  }

  /** Letters name their column number back, so different columns never
      share a letter. */
  lemma {:induction false} ColumnLetterRoundTrip(n: nat)
    requires n >= 1
    ensures ColumnNumber(ColumnLetter(n)) == n
    decreases n
  {
    if n > 26 {
      var s := ColumnLetter(n);
      assert s[..|s| - 1] == ColumnLetter((n - 1) / 26);
      ColumnLetterRoundTrip((n - 1) / 26);
    }
  }

  /** An "A1"-style cell reference. */
  function CellRef(column: nat, row: int): (s: string)
    requires column >= 1
    ensures |s| >= 2
  {
    ColumnLetter(column) + ApiRoutes.IntText(row)
  }

  /** The length of the run of capital letters a text starts with. */
  function LetterRun(s: string): (n: nat)
    ensures n <= |s|
    ensures forall i :: 0 <= i < n ==> IsUpper(s[i])
    ensures n < |s| ==> !IsUpper(s[n])
    decreases |s|
  {
    if s == [] || !IsUpper(s[0]) then 0 else 1 + LetterRun(s[1..])
  }

  /** Reads a cell reference back: the column its letters name and the row
      number after them. */
  function ReadCellRef(ref: string): (r: Option<(int, int)>)
    ensures r.Some? ==> ApiRoutes.PyInt(ref[LetterRun(ref)..]) == Some(r.value.1)
  {
    var n := LetterRun(ref);
    match ApiRoutes.PyInt(ref[n..])
    case None => None
    case Some(row) => Some((ColumnNumber(ref[..n]), row))
  }

  /** A reference names its column and row back. */
  lemma CellRefRoundTrip(column: nat, row: int)
    requires column >= 1
    ensures ReadCellRef(CellRef(column, row)) == Some((column, row))
  {
    var letters, digits := ColumnLetter(column), ApiRoutes.IntText(row);
    var s := CellRef(column, row);
    assert IsDigit(digits[0]) || digits[0] == '-' by {
      if row >= 0 {
        assert digits == ApiRoutes.DecimalText(row);
      } else {
        assert digits[0] == '-';
      }
    }
    assert s[..|letters|] == letters && s[|letters|..] == digits;
    assert LetterRun(s) == |letters|;
    ColumnLetterRoundTrip(column);
    ApiRoutes.IntTextRoundTrip(row);
  }

  /** The auto-filter range over `columns` columns: from A1 to the last
      column of the last data row, or of the header row when there is no
      data (FilterRangeEnds). */
  function FilterRange(columns: nat, numRows: nat): (s: string)
    requires columns >= 1
    ensures |s| > 3 && s[..3] == "A1:"
  {
    "A1:" + CellRef(columns, if numRows > 0 then numRows + 1 else 1)
  }

  /** The range ends at the cell of column `columns` and row numRows + 1,
      or row 1 without data. */
  lemma FilterRangeEnds(columns: nat, numRows: nat)
    requires columns >= 1
    ensures ReadCellRef(FilterRange(columns, numRows)[3..]) == Some((columns, if numRows > 0 then numRows + 1 else 1))
  {
    var last := if numRows > 0 then numRows + 1 else 1;
    CellRefRoundTrip(columns, last);
    assert FilterRange(columns, numRows)[3..] == CellRef(columns, last);
  }

  // ------------------------------------------------------------ column widths

  /** Rows 2 to 51 are sampled: at most the first 50 data rows. */
  const SampleRows: nat := 50

  /** The header colour, also the colour scale's top end. */
  const HeaderColor: string := "008001"

  /** The column the colour scale goes on. */
  const ScaleColumn: string := "Nome"

  /** `ws.cell(row, column).value`, 1-based; a cell that was never written
      reads as empty. */
  function CellAt(cells: seq<seq<string>>, row: int, column: int): (s: string)
    ensures 1 <= row <= |cells| && 1 <= column <= |cells[row - 1]| ==> s == cells[row - 1][column - 1]
    ensures !(1 <= row <= |cells| && 1 <= column <= |cells[row - 1]|) ==> s == ""
  {
    if 1 <= row <= |cells| && 1 <= column <= |cells[row - 1]| then cells[row - 1][column - 1] else ""
  }

  function Max(a: int, b: int): int { if a < b then b else a }
  function Min(a: int, b: int): int { if a < b then a else b }

  /** The longest of `start` and the lengths of rows 2 .. hi - 1 of one
      column (an empty cell does not count, which changes nothing since its
      length is 0). */
  function SampleMax(cells: seq<seq<string>>, column: int, start: int, hi: int): int
    decreases hi
  {
    if hi <= 2 then start else Max(SampleMax(cells, column, start, hi - 1), |CellAt(cells, hi - 1, column)|)
  }

  /** The sample maximum bounds every sampled length and the header length,
      and is one of them. */
  lemma {:induction false} SampleMaxIsMax(cells: seq<seq<string>>, column: int, start: int, hi: int)
    ensures SampleMax(cells, column, start, hi) >= start
    ensures forall r :: 2 <= r < hi ==> |CellAt(cells, r, column)| <= SampleMax(cells, column, start, hi)
    ensures SampleMax(cells, column, start, hi) == start
            || exists r :: 2 <= r < hi && SampleMax(cells, column, start, hi) == |CellAt(cells, r, column)|
    decreases hi
  {
    if hi > 2 {
      SampleMaxIsMax(cells, column, start, hi - 1);
    }
  }

  /** Rows that are not sampled never change the maximum. */
  lemma {:induction false} SampleMaxIgnoresLaterRows(cells: seq<seq<string>>, more: seq<seq<string>>, column: int, start: int, hi: int)
    requires hi <= |cells| + 1
    ensures SampleMax(cells + more, column, start, hi) == SampleMax(cells, column, start, hi)
    decreases hi
  {
    if hi > 2 {
      SampleMaxIgnoresLaterRows(cells, more, column, start, hi - 1);
      assert CellAt(cells + more, hi - 1, column) == CellAt(cells, hi - 1, column);
    }
  }

  /** `min(max(max_len + 2, 10), 60)`. */
  function ClampedWidth(maxLen: int): (w: int)
    ensures 10 <= w <= 60
    ensures 10 <= maxLen + 2 <= 60 ==> w == maxLen + 2
    ensures maxLen + 2 < 10 ==> w == 10
    ensures maxLen + 2 > 60 ==> w == 60
  {
    Min(Max(maxLen + 2, 10), 60)
  }

  /** The width of column `column` (1-based): from the header's length and
      the sampled cells, clamped to [10, 60]. */
  function ColumnWidth(cells: seq<seq<string>>, headers: seq<string>, numRows: nat, column: int): (w: int)
    requires 1 <= column <= |headers|
    ensures 10 <= w <= 60
    ensures w >= Min(|headers[column - 1]| + 2, 60)
    ensures forall r :: 2 <= r < Min(numRows + 2, SampleRows + 2) ==> w >= Min(|CellAt(cells, r, column)| + 2, 60)
  {
    var m := SampleMax(cells, column, |headers[column - 1]|, Min(numRows + 2, SampleRows + 2));
    SampleMaxIsMax(cells, column, |headers[column - 1]|, Min(numRows + 2, SampleRows + 2));
    ClampedWidth(m)
  }

  /** `m` with the widths of columns 1 .. upTo set, as the width loop
      leaves `column_dimensions` after column `upTo`. */
  function SetWidths(m: map<int, int>, cells: seq<seq<string>>, headers: seq<string>, numRows: nat, upTo: int): (r: map<int, int>)
    requires upTo <= |headers|
    ensures forall c :: c in r <==> c in m || 1 <= c <= upTo
    ensures forall c :: 1 <= c <= upTo ==> r[c] == ColumnWidth(cells, headers, numRows, c)
    ensures forall c :: c in m && !(1 <= c <= upTo) ==> r[c] == m[c]
    decreases upTo
  {
    if upTo < 1 then m
    else SetWidths(m, cells, headers, numRows, upTo - 1)[upTo := ColumnWidth(cells, headers, numRows, upTo)]
  }

  /** The position of the first occurrence of `x`, as `list.index`. */
  function FirstIndex(xs: seq<string>, x: string): (r: Option<nat>)
    ensures r.None? <==> x !in xs
    ensures r.Some? ==> r.value < |xs| && xs[r.value] == x && x !in xs[..r.value]
  {
    if xs == [] then None
    else if xs[0] == x then Some(0)
    else match FirstIndex(xs[1..], x)
      case None => None
      case Some(k) =>
        assert xs[..k + 1] == [xs[0]] + xs[1..][..k];
        Some(k + 1)
  }

  /** The colour-scale range: the data rows of the first "Nome" column, only
      when there is data. */
  function ScaleRange(headers: seq<string>, numRows: nat): (r: Option<string>)
    ensures r.Some? <==> numRows > 0 && ScaleColumn in headers
    ensures r.Some? ==>
              var c := FirstIndex(headers, ScaleColumn).value + 1;
              r.value == CellRef(c, 2) + ":" + CellRef(c, numRows + 1)
  {
    if numRows > 0 then
      match FirstIndex(headers, ScaleColumn)
      case None => None
      case Some(k) => Some(CellRef(k + 1, 2) + ":" + CellRef(k + 1, numRows + 1))
    else None
  }

  // ------------------------------------------------------------ worksheets

  /** Everything a worksheet holds that this model tracks. */
  datatype SheetState = SheetState(title: string, cells: seq<seq<string>>, frozen: bool, filterRef: Option<string>,
                                   widths: map<int, int>, scaleRange: Option<string>)

  /** A sheet just created. */
  function Blank(title: string): (s: SheetState)
    ensures s.title == title && s.cells == [] && s.widths == map[]
  {
    SheetState(title, [], false, None, map[], None)
  }

  /** The sheet an export writes: the header row, the data rows as text,
      frozen below the header, filtered, with the widths and colour scale of
      those cells. */
  function Formatted(title: string, headers: seq<string>, data: seq<Row>): (s: SheetState)
    requires |headers| > 0
    ensures s.title == title && s.frozen
    ensures |s.cells| == |data| + 1 && s.cells[0] == headers && s.cells[1..] == RenderRows(data)
    ensures forall c :: c in s.widths <==> 1 <= c <= |headers|
    ensures forall c :: c in s.widths ==> 10 <= s.widths[c] <= 60
    ensures s.filterRef == Some(FilterRange(|headers|, |data|))
    ensures s.scaleRange == ScaleRange(headers, |data|)
  {
    var cells := [headers] + RenderRows(data);
    SheetState(title, cells, true, Some(FilterRange(|headers|, |data|)), SetWidths(map[], cells, headers, |data|, |headers|),
               ScaleRange(headers, |data|))
  }

  class Worksheet {
    var title: string
    var cells: seq<seq<string>>
    var frozen: bool
    var filterRef: Option<string>
    var widths: map<int, int>
    var scaleRange: Option<string>

    function State(): SheetState
      reads this
    {
      SheetState(title, cells, frozen, filterRef, widths, scaleRange)
    }

    constructor (name: string)
      ensures State() == Blank(name)
    {
      title := name;
      cells := [];
      frozen := false;
      filterRef := None;
      widths := map[];
      scaleRange := None;
    }

    /** `_add_headers`: nothing for an empty list, otherwise the headers
        become the next row (their fill and font are not modelled); a
        header openpyxl refuses fails the call (`ok` false). */
    method AddHeaders(headers: seq<string>) returns (ok: bool)
      modifies this
      ensures ok <==> RowAccepted(headers)
      ensures ok ==> State() == old(State()).(cells := if headers == [] then old(cells) else old(cells) + [headers])
      ensures !ok ==> State() == old(State())
    {
      if headers == [] {
        return true;
      }
      if !RowAccepted(headers) {
        return false;
      }
      cells := cells + [headers];
      ok := true;
    }

    /** `_add_data`: each row appended, every value as CellText, until a
        row openpyxl refuses fails the call (`ok` false) with the rows
        before it written. */
    method AddData(data: seq<Row>) returns (ok: bool)
      modifies this
      ensures ok <==> FirstRejected(RenderRows(data)) == |data|
      ensures State() == old(State()).(cells := old(cells) + RenderRows(data)[..FirstRejected(RenderRows(data))])
    {
      var written;
      written, ok := AppendRows(cells, data);
      cells := written;
    }

    /** `_apply_formattings`: with no headers nothing changes; otherwise the
        panes freeze below the header, the filter covers the header and the
        data rows, each column's width is set from the header and the
        sampled rows, and the "Nome" column gets its colour scale when there
        is data. */
    method ApplyFormattings(numRows: nat, headers: seq<string>)
      modifies this
      ensures headers == [] ==> State() == old(State())
      ensures headers != [] ==>
                State() == old(State()).(frozen := true, filterRef := Some(FilterRange(|headers|, numRows)),
                                         widths := SetWidths(old(widths), old(cells), headers, numRows, |headers|),
                                         scaleRange := if ScaleRange(headers, numRows).Some?
                                                       then ScaleRange(headers, numRows) else old(scaleRange))
    {
      var numCols := |headers|;
      if numCols == 0 {
        return;
      }
      frozen := true;
      if numRows > 0 {
        filterRef := Some("A1:" + CellRef(numCols, numRows + 1));
      } else {
        filterRef := Some("A1:" + CellRef(numCols, 1));
      }
      widths := WidthsAfter(widths, cells, headers, numRows);
      var scale := ScaleRange(headers, numRows);
      if scale.Some? {
        scaleRange := scale;
      }
    }
  }

  /** The loop of `_add_data`: the data rows written in turn after
      `cells`, up to the first one openpyxl refuses. */
  method AppendRows(cells: seq<seq<string>>, data: seq<Row>) returns (written: seq<seq<string>>, ok: bool)
    ensures ok <==> FirstRejected(RenderRows(data)) == |data|
    ensures written == cells + RenderRows(data)[..FirstRejected(RenderRows(data))]
  {
    ghost var rendered := RenderRows(data);
    written := cells;
    var i := 0;
    while i < |data|
      invariant 0 <= i <= |data|
      invariant FirstRejected(rendered) >= i
      invariant written == cells + rendered[..i]
    {
      var row := RenderRow(data[i]);
      FirstRejectedScan(rendered, i);
      if !RowAccepted(row) {
        return written, false;
      }
      assert rendered[..i + 1] == rendered[..i] + [row];
      written := written + [row];
      i := i + 1;
    }
    assert rendered[..i] == rendered;
    ok := true;
  }

  /** The width loop of `_apply_formattings`: every column from 1 to the
      last header sized in turn. */
  method WidthsAfter(m: map<int, int>, cells: seq<seq<string>>, headers: seq<string>, numRows: nat)
    returns (widths: map<int, int>)
    ensures widths == SetWidths(m, cells, headers, numRows, |headers|)
  {
    widths := m;
    var idx := 1;
    while idx <= |headers|
      invariant 1 <= idx <= |headers| + 1
      invariant widths == SetWidths(m, cells, headers, numRows, idx - 1)
    {
      var w := MeasureColumn(cells, headers, numRows, idx);
      widths := widths[idx := w];
      idx := idx + 1;
    }
  }

  /** The width loop of `_apply_formattings` for one column: the header's
      length, raised by every non-empty sampled cell, then clamped. */
  method MeasureColumn(cells: seq<seq<string>>, headers: seq<string>, numRows: nat, column: int) returns (w: int)
    requires 1 <= column <= |headers|
    ensures w == ColumnWidth(cells, headers, numRows, column)
  {
    var maxLen := |headers[column - 1]|;
    var hi := Min(numRows + 2, SampleRows + 2);
    var r := 2;
    while r < hi
      invariant 2 <= r <= hi
      invariant maxLen == SampleMax(cells, column, |headers[column - 1]|, r)
    {
      var v := CellAt(cells, r, column);
      if |v| > 0 {
        maxLen := Max(maxLen, |v|);
      }
      r := r + 1;
    }
    w := ClampedWidth(maxLen);
  }

  /** Creates a sheet and writes headers, data and formatting into it; a
      text openpyxl refuses raises IllegalCharacterError (`ok` false)
      before the formatting, and the caller drops the sheet. */
  method NewFormattedSheet(title: string, headers: seq<string>, data: seq<Row>) returns (w: Worksheet, ok: bool)
    requires |headers| > 0
    ensures fresh(w)
    ensures ok <==> SheetAccepted(headers, data)
    ensures ok ==> w.State() == Formatted(title, headers, data)
  {
    w := new Worksheet(title);
    ok := w.AddHeaders(headers);
    if !ok {
      return;
    }
    ok := w.AddData(data);
    if !ok {
      return;
    }
    ghost var cells := [headers] + RenderRows(data);
    assert RenderRows(data)[..|data|] == RenderRows(data);
    assert w.State() == SheetState(title, cells, false, None, map[], None);
    w.ApplyFormattings(|data|, headers);
    assert w.State() == SheetState(title, cells, true, Some(FilterRange(|headers|, |data|)),
                                   SetWidths(map[], cells, headers, |data|, |headers|), ScaleRange(headers, |data|));
  }

  /** `export_to_excel_bytes`: no headers raises ValueError before anything
      is created; a text openpyxl refuses is reported as RuntimeError;
      otherwise one formatted sheet with the given title. The
      serialisation to bytes is not modelled. */
  method ExportSingle(data: seq<Row>, headers: seq<string>, sheetName: string) returns (r: Outcome<Worksheet>)
    ensures r.Raised? <==> headers == [] || !SheetAccepted(headers, data)
    ensures r.Raised? ==> r.kind == (if headers == [] then "ValueError" else "RuntimeError")
    ensures r.Done? ==> fresh(r.value) && r.value.State() == Formatted(sheetName, headers, data)
  {
    if headers == [] {
      return Raised("ValueError");
    }
    var w, ok := NewFormattedSheet(sheetName, headers, data);
    r := if ok then Done(w) else Raised("RuntimeError");
  }

  // ------------------------------------------------------------ several sheets

  /** One entry of the multi-sheet request; the name may be absent. */
  datatype SheetInput = SheetInput(name: Option<string>, headers: seq<string>, data: seq<Row>)

  /** The name of a sheet: its own, or "Aba_<n+1>" where n sheets exist
      (DefaultNameNumber). */
  function SheetName(name: Option<string>, existing: nat): (s: string)
    ensures name.Some? ==> s == name.value
    ensures name.None? ==> |s| > 4 && s[..4] == "Aba_"
  {
    if name.Some? then name.value else "Aba_" + ApiRoutes.IntText(existing + 1)
  }

  /** A default name ends in the number one past the existing sheets. */
  lemma DefaultNameNumber(existing: nat)
    ensures ApiRoutes.PyInt(SheetName(None, existing)[4..]) == Some(existing + 1)
  {
    ApiRoutes.IntTextRoundTrip(existing + 1);
    assert SheetName(None, existing)[4..] == ApiRoutes.IntText(existing + 1);
  }

  /** Default names given at different sheet counts differ. */
  lemma DefaultNamesDiffer(a: nat, b: nat)
    requires a != b
    ensures SheetName(None, a) != SheetName(None, b)
  {
    DefaultNameNumber(a);
    DefaultNameNumber(b);
  }

  /** A sheet the request leads to: its title, headers and data. */
  datatype PlannedSheet = PlannedSheet(title: string, headers: seq<string>, data: seq<Row>)

  /** The sheet one input gives when `existing` sheets precede it: none
      without headers, otherwise one named by SheetName. */
  function PlanStep(e: SheetInput, existing: nat): (p: seq<PlannedSheet>)
    ensures |p| <= 1 && (p == [] <==> e.headers == [])
    ensures p != [] ==> p[0] == PlannedSheet(SheetName(e.name, existing), e.headers, e.data)
  {
    if e.headers == [] then [] else [PlannedSheet(SheetName(e.name, existing), e.headers, e.data)]
  }

  /** The sheets the inputs give, in order: an input without headers is
      skipped, and one without a name is named after the sheets before it. */
  function Planned(inputs: seq<SheetInput>): (p: seq<PlannedSheet>)
    ensures |p| <= |inputs|
    ensures forall k :: 0 <= k < |p| ==> p[k].headers != []
  {
    if inputs == [] then []
    else
      var before := Planned(inputs[..|inputs| - 1]);
      before + PlanStep(inputs[|inputs| - 1], |before|)
  }

  /** The sheet written for a planned one. */
  function SheetOf(p: PlannedSheet): (s: SheetState)
    requires p.headers != []
    ensures s.title == p.title && |s.cells| == |p.data| + 1 && s.cells[0] == p.headers
  {
    Formatted(p.title, p.headers, p.data)
  }

  /** The sheets hold, one by one, what the plan says they should. */
  ghost predicate Realizes(sheets: seq<Worksheet>, plan: seq<PlannedSheet>)
    reads sheets
  {
    |sheets| == |plan|
    && forall k :: 0 <= k < |plan| ==> plan[k].headers != [] && sheets[k].State() == SheetOf(plan[k])
  }

  /** Sheets written for more planned sheets extend what is realised. */
  lemma RealizesConcat(sheets: seq<Worksheet>, plan: seq<PlannedSheet>, more: seq<Worksheet>, morePlan: seq<PlannedSheet>)
    requires Realizes(sheets, plan) && Realizes(more, morePlan)
    ensures Realizes(sheets + more, plan + morePlan)
  {
    forall k | 0 <= k < |plan + morePlan|
      ensures (plan + morePlan)[k].headers != [] && (sheets + more)[k].State() == SheetOf((plan + morePlan)[k])
    {
      if k < |plan| {
        assert (sheets + more)[k] == sheets[k] && (plan + morePlan)[k] == plan[k];
      } else {
        assert (sheets + more)[k] == more[k - |plan|] && (plan + morePlan)[k] == morePlan[k - |plan|];
      }
    }
  }

  /** Planning one more input adds its sheet when it has headers. */
  lemma PlannedSnoc(inputs: seq<SheetInput>, i: nat)
    requires i < |inputs|
    ensures Planned(inputs[..i + 1]) == Planned(inputs[..i]) + PlanStep(inputs[i], |Planned(inputs[..i])|)
  {
    assert inputs[..i + 1][..i] == inputs[..i];
  }

  /** An input is planned exactly when it has headers, so nothing is
      planned only when every input lacks them. */
  lemma {:induction false} PlannedEmpty(inputs: seq<SheetInput>)
    ensures Planned(inputs) == [] <==> forall i :: 0 <= i < |inputs| ==> inputs[i].headers == []
  {
    if inputs != [] {
      PlannedEmpty(inputs[..|inputs| - 1]);
      var front := inputs[..|inputs| - 1];
      assert forall i :: 0 <= i < |front| ==> front[i] == inputs[i];
    }
  }

  /** openpyxl takes every text of an input it writes (an input without
      headers is skipped unread). */
  predicate InputAccepted(e: SheetInput)
  {
    e.headers == [] || SheetAccepted(e.headers, e.data)
  }

  /** The position of the first input openpyxl refuses; |inputs| when it
      takes them all. */
  function FirstRefused(inputs: seq<SheetInput>): (j: nat)
    ensures j <= |inputs|
    decreases |inputs|
  {
    if inputs == [] || !InputAccepted(inputs[0]) then 0 else 1 + FirstRefused(inputs[1..])
  }

  /** Every input before FirstRefused is taken, and the input there, if
      any, is refused. */
  lemma {:induction false} FirstRefusedSpec(inputs: seq<SheetInput>)
    ensures forall k :: 0 <= k < FirstRefused(inputs) ==> InputAccepted(inputs[k])
    ensures FirstRefused(inputs) < |inputs| ==> !InputAccepted(inputs[FirstRefused(inputs)])
    decreases |inputs|
  {
    if inputs != [] && InputAccepted(inputs[0]) {
      FirstRefusedSpec(inputs[1..]);
      forall k | 0 < k < FirstRefused(inputs)
        ensures InputAccepted(inputs[k])
      {
        assert inputs[k] == inputs[1..][k - 1];
      }
    }
  }

  lemma FirstRefusedScan(inputs: seq<SheetInput>, i: nat)
    requires i < |inputs| && FirstRefused(inputs) >= i
    ensures InputAccepted(inputs[i]) ==> FirstRefused(inputs) > i
    ensures !InputAccepted(inputs[i]) ==> FirstRefused(inputs) == i
  {
    FirstRefusedSpec(inputs);
  }

  /** The workbook's sheets: the planned ones, or a single blank "Vazio"
      sheet when none was planned. */
  function MultiSheets(inputs: seq<SheetInput>): (ws: seq<SheetState>)
    ensures |ws| >= 1
    ensures Planned(inputs) != [] ==>
              |ws| == |Planned(inputs)| && forall k :: 0 <= k < |ws| ==> ws[k] == SheetOf(Planned(inputs)[k])
    ensures Planned(inputs) == [] ==> ws == [Blank("Vazio")]
  {
    var p := Planned(inputs);
    if p == [] then [Blank("Vazio")] else seq(|p|, k requires 0 <= k < |p| => SheetOf(p[k]))
  }

  /** `export_multi_sheet_excel_bytes`: an empty request raises ValueError;
      a text openpyxl refuses is reported as RuntimeError; otherwise the
      default sheet is dropped, one formatted sheet is created
      per input with headers, in order, and a blank "Vazio" sheet when none
      was. */
  method ExportMulti(inputs: seq<SheetInput>) returns (r: Outcome<seq<Worksheet>>)
    ensures r.Raised? <==> inputs == [] || exists i :: 0 <= i < |inputs| && !InputAccepted(inputs[i])
    ensures r.Raised? ==> r.kind == (if inputs == [] then "ValueError" else "RuntimeError")
    ensures r.Done? ==> |r.value| == |MultiSheets(inputs)|
                        && forall k :: 0 <= k < |r.value| ==> fresh(r.value[k]) && r.value[k].State() == MultiSheets(inputs)[k]
  {
    if inputs == [] {
      return Raised("ValueError");
    }
    FirstRefusedSpec(inputs);
    r := WriteSheets(inputs);
    if r.Done? && r.value == [] {
      var w := new Worksheet("Vazio");
      r := Done([w]);
    } else if r.Done? {
      ghost var ws := MultiSheets(inputs);
      forall k | 0 <= k < |r.value|
        ensures fresh(r.value[k]) && r.value[k].State() == ws[k]
      {
        assert r.value[k] in r.value;
      }
    }
  }

  /** One step of that loop: an input with headers gets a new formatted
      sheet, named after the `existing` sheets before it; one without is
      skipped. */
  method WriteInput(entry: SheetInput, existing: nat) returns (added: seq<Worksheet>, ok: bool)
    ensures ok <==> InputAccepted(entry)
    ensures ok ==> Realizes(added, PlanStep(entry, existing)) && forall s :: s in added ==> fresh(s)
  {
    added := [];
    ok := true;
    if entry.headers != [] {
      var w;
      w, ok := NewFormattedSheet(SheetName(entry.name, existing), entry.headers, entry.data);
      if ok {
        added := [w];
      }
    }
  }

  /** The loop of `export_multi_sheet_excel_bytes`: a formatted sheet for
      each input with headers, in order, until openpyxl refuses a text. */
  method WriteSheets(inputs: seq<SheetInput>) returns (r: Outcome<seq<Worksheet>>)
    ensures r.Raised? <==> FirstRefused(inputs) < |inputs|
    ensures r.Raised? ==> r.kind == "RuntimeError"
    ensures r.Done? ==> Realizes(r.value, Planned(inputs)) && forall s :: s in r.value ==> fresh(s)
  {
    var sheets: seq<Worksheet> := [];
    var i := 0;
    while i < |inputs|
      invariant 0 <= i <= |inputs|
      invariant FirstRefused(inputs) >= i
      invariant Realizes(sheets, Planned(inputs[..i]))
      invariant forall s :: s in sheets ==> fresh(s)
    {
      PlannedSnoc(inputs, i);
      FirstRefusedScan(inputs, i);
      var added, ok := WriteInput(inputs[i], |sheets|);
      if !ok {
        return Raised("RuntimeError");
      }
      RealizesConcat(sheets, Planned(inputs[..i]), added, PlanStep(inputs[i], |sheets|));
      sheets := sheets + added;
      i := i + 1;
    }
    assert inputs[..i] == inputs;
    r := Done(sheets);
  }

}
