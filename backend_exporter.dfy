// The spreadsheet writer of the application package (backend/exporter.py):
// header cells written one by one into row 1, data rows appended as raw
// values, and every column sized from all of its cells, capped at 50.
module BackendExporter {
  import opened Common
  import opened SqlText
  import Exporter

  /** The widest column this writer sets. */
  const MaxWidth: int := 50

  /** The height given to row 1. */
  const HeaderHeight: int := 20

  /** Column `column` (1-based) of a row, None when the row is shorter. */
  function CellAt(row: seq<Value>, column: int): (v: Value)
    ensures 1 <= column <= |row| ==> v == row[column - 1]
    ensures !(1 <= column <= |row|) ==> v == Null
  {
    if 1 <= column <= |row| then row[column - 1] else Null
  }

  /** The length `str` gives a cell, 0 for None (which is skipped). */
  function CellLength(v: Value): (n: nat)
    ensures v.Null? ==> n == 0
    ensures !v.Null? ==> n == |Exporter.PyStr(v)|
  {
    if v.Null? then 0 else |Exporter.PyStr(v)|
  }

  /** The longest cell of one column over the first `upTo` rows. */
  function ColumnMax(rows: seq<seq<Value>>, column: int, upTo: int): nat
    requires upTo <= |rows|
    decreases upTo
  {
    if upTo <= 0 then 0
    else Exporter.Max(ColumnMax(rows, column, upTo - 1), CellLength(CellAt(rows[upTo - 1], column))) as nat
  }

  /** The column maximum bounds every cell of the column and is attained
      by one of them (or is 0). */
  lemma {:induction false} ColumnMaxIsMax(rows: seq<seq<Value>>, column: int, upTo: int)
    requires 0 <= upTo <= |rows|
    ensures forall r :: 0 <= r < upTo ==> CellLength(CellAt(rows[r], column)) <= ColumnMax(rows, column, upTo)
    ensures ColumnMax(rows, column, upTo) == 0
            || exists r :: 0 <= r < upTo && ColumnMax(rows, column, upTo) == CellLength(CellAt(rows[r], column))
    decreases upTo
  {
    if upTo > 0 {
      ColumnMaxIsMax(rows, column, upTo - 1);
      var prev := ColumnMax(rows, column, upTo - 1);
      var last := CellLength(CellAt(rows[upTo - 1], column));
      assert ColumnMax(rows, column, upTo) == if prev < last then last else prev;
      forall r | 0 <= r < upTo
        ensures CellLength(CellAt(rows[r], column)) <= ColumnMax(rows, column, upTo)
      {
        if r < upTo - 1 {
          assert CellLength(CellAt(rows[r], column)) <= prev;
        }
      }
      if prev < last {
        assert ColumnMax(rows, column, upTo) == CellLength(CellAt(rows[upTo - 1], column));
      } else if prev != 0 {
        var r :| 0 <= r < upTo - 1 && prev == CellLength(CellAt(rows[r], column));
        assert ColumnMax(rows, column, upTo) == CellLength(CellAt(rows[r], column));
      }
    }
  }

  /** The width of one column: its longest cell plus 2, capped at 50; there
      is no lower bound. */
  function ColumnWidth(rows: seq<seq<Value>>, column: int): (w: int)
    ensures 2 <= w <= MaxWidth
    ensures forall r :: 0 <= r < |rows| ==> w >= Exporter.Min(CellLength(CellAt(rows[r], column)) + 2, MaxWidth)
    ensures w < MaxWidth ==> w == 2 || exists r :: 0 <= r < |rows| && w == CellLength(CellAt(rows[r], column)) + 2
  {
    ColumnMaxIsMax(rows, column, |rows|);
    var adjusted := ColumnMax(rows, column, |rows|) + 2;
    if adjusted < MaxWidth then adjusted else MaxWidth
  }

  /** The number of columns `ws.columns` walks: the longest row, and at
      least one. */
  function MaxColumn(rows: seq<seq<Value>>): (n: nat)
    ensures n >= 1
    ensures forall r :: 0 <= r < |rows| ==> |rows[r]| <= n
  {
    if rows == [] then 1 else Exporter.Max(MaxColumn(rows[..|rows| - 1]), |rows[|rows| - 1]|) as nat
  }

  /** `m` with the widths of columns 1 .. upTo set. */
  function SetWidths(m: map<int, int>, rows: seq<seq<Value>>, upTo: int): (r: map<int, int>)
    ensures forall c :: c in r <==> c in m || 1 <= c <= upTo
    ensures forall c :: 1 <= c <= upTo ==> r[c] == ColumnWidth(rows, c)
    ensures forall c :: c in m && !(1 <= c <= upTo) ==> r[c] == m[c]
    decreases upTo
  {
    if upTo < 1 then m else SetWidths(m, rows, upTo - 1)[upTo := ColumnWidth(rows, upTo)]
  }

  /** The header texts as cell values. */
  function HeaderRow(headers: seq<string>): (row: seq<Value>)
    ensures |row| == |headers|
    ensures forall i :: 0 <= i < |headers| ==> row[i] == Text(headers[i])
  {
    if headers == [] then [] else HeaderRow(headers[..|headers| - 1]) + [Text(headers[|headers| - 1])]
  }

  /** openpyxl takes a value into a cell: a text none of whose first
      Exporter.CellLimit characters is illegal, a number, a date or None; a
      list is refused with ValueError. */
  predicate CellAccepted(v: Value)
  {
    match v
    case Text(s) => Exporter.TextAccepted(s)
    case Ids(_) => false
    case _ => true
  }

  /** Every value of a data row is taken. */
  predicate ValuesAccepted(row: seq<Value>)
  {
    forall i :: 0 <= i < |row| ==> CellAccepted(row[i])
  }

  /** The position of the first data row openpyxl refuses; |data| when it
      takes them all. */
  function FirstBadRow(data: seq<seq<Value>>): (j: nat)
    ensures j <= |data|
    decreases |data|
  {
    if data == [] || !ValuesAccepted(data[0]) then 0 else 1 + FirstBadRow(data[1..])
  }

  /** Every row before FirstBadRow is taken, and the row there, if any, is
      refused. */
  lemma {:induction false} FirstBadRowSpec(data: seq<seq<Value>>)
    ensures forall k :: 0 <= k < FirstBadRow(data) ==> ValuesAccepted(data[k])
    ensures FirstBadRow(data) < |data| ==> !ValuesAccepted(data[FirstBadRow(data)])
    decreases |data|
  {
    if data != [] && ValuesAccepted(data[0]) {
      FirstBadRowSpec(data[1..]);
      forall k | 0 < k < FirstBadRow(data)
        ensures ValuesAccepted(data[k])
      {
        assert data[k] == data[1..][k - 1];
      }
    }
  }

  lemma FirstBadRowScan(data: seq<seq<Value>>, i: nat)
    requires i < |data| && FirstBadRow(data) >= i
    ensures ValuesAccepted(data[i]) ==> FirstBadRow(data) > i
    ensures !ValuesAccepted(data[i]) ==> FirstBadRow(data) == i
  {
    FirstBadRowSpec(data);
  }

  /** A sheet whose headers and data openpyxl takes in full. */
  predicate SheetWritable(headers: seq<string>, data: seq<seq<Value>>)
  {
    Exporter.RowAccepted(headers) && FirstBadRow(data) == |data|
  }

  /** A list cell or a control character anywhere in the data refuses the
      sheet; ordinary values are taken. */
  lemma WritableExamples()
    ensures SheetWritable(["Id"], [[Int(1), Text("Ana"), Null]])
    ensures !SheetWritable(["Id"], [[Int(1)], [Ids([2, 3])]])
    ensures !SheetWritable(["I\U{0001}d"], [])
  {
    assert ValuesAccepted([Int(1), Text("Ana"), Null]);
    assert !CellAccepted([Ids([2, 3])][0]);
    assert Exporter.IllegalChar("I\U{0001}d"[1]);
    assert !Exporter.RowAccepted(["I\U{0001}d"]) by {
      assert !Exporter.TextAccepted(["I\U{0001}d"][0]);
    }
    FirstBadRowScan([[Int(1)], [Ids([2, 3])]], 0);
    FirstBadRowScan([[Int(1)], [Ids([2, 3])]], 1);
  }

  /** What a sheet holds that this model tracks. */
  datatype SheetState = SheetState(title: string, rows: seq<seq<Value>>, headerHeight: Option<int>, widths: map<int, int>)

  /** The sheet an export writes: the header row when there are headers,
      the data rows below it (from row 1 when there are none), row 1's
      height set, and the widths only when there is data. */
  function Written(title: string, headers: seq<string>, data: seq<seq<Value>>): (s: SheetState)
    ensures s.title == title && s.headerHeight == Some(HeaderHeight)
    ensures headers != [] ==> s.rows == [HeaderRow(headers)] + data
    ensures headers == [] ==> s.rows == data
    ensures data == [] ==> s.widths == map[]
    ensures data != [] ==> forall c :: c in s.widths <==> 1 <= c <= MaxColumn(s.rows)
    ensures forall c :: c in s.widths ==> s.widths[c] <= MaxWidth
  {
    var rows := (if headers == [] then [] else [HeaderRow(headers)]) + data;
    SheetState(title, rows, Some(HeaderHeight), if data == [] then map[] else SetWidths(map[], rows, MaxColumn(rows)))
  }

  class Sheet {
    var title: string
    var rows: seq<seq<Value>>
    var headerHeight: Option<int>
    var widths: map<int, int>

    function State(): SheetState
      reads this
    {
      SheetState(title, rows, headerHeight, widths)
    }

    constructor (name: string)
      ensures State() == SheetState(name, [], None, map[])
    {
      title := name;
      rows := [];
      headerHeight := None;
      widths := map[];
    }

    /** `_add_headers` on a new sheet: header i goes into column i of row 1,
        one cell at a time, and openpyxl refuses a text with an illegal
        character (`ok` false); row 1's height is set after the loop, even
        when there are no headers (cell styles are not modelled). */
    method AddHeaders(headers: seq<string>) returns (ok: bool)
      requires rows == []
      modifies this
      ensures ok <==> Exporter.RowAccepted(headers)
      ensures ok ==> State() == old(State()).(rows := if headers == [] then [] else [HeaderRow(headers)],
                                               headerHeight := Some(HeaderHeight))
      ensures title == old(title)
    {
      var col := 1;
      while col <= |headers|
        invariant 1 <= col <= |headers| + 1
        invariant rows == if col == 1 then [] else [HeaderRow(headers[..col - 1])]
        invariant forall k :: 0 <= k < col - 1 ==> Exporter.TextAccepted(headers[k])
        invariant title == old(title) && headerHeight == old(headerHeight) && widths == old(widths)
      {
        if !Exporter.TextAccepted(headers[col - 1]) {
          return false;
        }
        var row := if rows == [] then [] else rows[0];
        assert headers[..col][..col - 1] == headers[..col - 1];
        rows := [row + [Text(headers[col - 1])]];
        col := col + 1;
      }
      assert headers[..|headers|] == headers;
      headerHeight := Some(HeaderHeight);
      ok := true;
    }

    /** `_add_data`: nothing for no data; otherwise each row appended as it
        is, then every column from 1 to the widest row sized from all of its
        cells, the header's included. */
    method AddData(data: seq<seq<Value>>) returns (ok: bool)
      modifies this
      ensures ok <==> FirstBadRow(data) == |data|
      ensures data == [] ==> State() == old(State())
      ensures ok && data != [] ==>
                State() == old(State()).(rows := old(rows) + data,
                                         widths := SetWidths(old(widths), old(rows) + data, MaxColumn(old(rows) + data)))
      ensures title == old(title) && headerHeight == old(headerHeight)
    {
      if data == [] {
        return true;
      }
      var i := 0;
      while i < |data|
        invariant 0 <= i <= |data|
        invariant FirstBadRow(data) >= i
        invariant rows == old(rows) + data[..i]
        invariant title == old(title) && headerHeight == old(headerHeight) && widths == old(widths)
      {
        FirstBadRowScan(data, i);
        if !ValuesAccepted(data[i]) {
          return false;
        }
        assert data[..i + 1] == data[..i] + [data[i]];
        rows := rows + [data[i]];
        i := i + 1;
      }
      assert data[..i] == data;
      var columns := MaxColumn(rows);
      var col := 1;
      while col <= columns
        invariant 1 <= col <= columns + 1
        invariant rows == old(rows) + data
        invariant title == old(title) && headerHeight == old(headerHeight)
        invariant widths == SetWidths(old(widths), rows, col - 1)
      {
        var w := MeasureColumn(rows, col);
        widths := widths[col := w];
        col := col + 1;
      }
      ok := true;
    }
  }

  /** The inner loop of the width pass: the longest `str` of a non-None
      cell of the column. */
  method LongestCell(rows: seq<seq<Value>>, column: int) returns (maxLength: nat)
    ensures maxLength == ColumnMax(rows, column, |rows|)
  {
    maxLength := 0;
    var r := 0;
    while r < |rows|
      invariant 0 <= r <= |rows|
      invariant maxLength == ColumnMax(rows, column, r)
    {
      var length := CellLength(CellAt(rows[r], column));
      assert ColumnMax(rows, column, r + 1) == Exporter.Max(maxLength, length);
      if length > maxLength {
        maxLength := length;
      }
      r := r + 1;
    }
  }

  /** One column of the width pass: the longest cell plus 2, capped at 50. */
  method MeasureColumn(rows: seq<seq<Value>>, column: int) returns (w: int)
    ensures w == ColumnWidth(rows, column)
  {
    var maxLength := LongestCell(rows, column);
    var adjusted := maxLength + 2;
    w := if adjusted < MaxWidth then adjusted else MaxWidth;
  }

  /** Creates a sheet and writes headers and data into it; `ok` is false
      when openpyxl refuses a header or a value, and the writing stops
      there. */
  method NewWrittenSheet(title: string, headers: seq<string>, data: seq<seq<Value>>) returns (w: Sheet, ok: bool)
    ensures fresh(w) && w.title == title
    ensures ok <==> SheetWritable(headers, data)
    ensures ok ==> w.State() == Written(title, headers, data)
  {
    w := new Sheet(title);
    ok := w.AddHeaders(headers);
    if !ok {
      return;
    }
    ok := w.AddData(data);
  }

  /** One entry of the multi-sheet request; each key may be missing. */
  datatype SheetInput = SheetInput(name: Option<string>, headers: Option<seq<string>>, data: Option<seq<seq<Value>>>)

  predicate Complete(e: SheetInput)
  {
    e.name.Some? && e.headers.Some? && e.data.Some?
  }

  /** An entry the multi-sheet export writes without error: every key
      present and every text and value taken. */
  predicate Writable(e: SheetInput)
  {
    Complete(e) && SheetWritable(e.headers.value, e.data.value)
  }

  /** The sheet written for a complete entry. */
  function WrittenOf(e: SheetInput): (s: SheetState)
    requires Complete(e)
    ensures s.title == e.name.value
  {
    Written(e.name.value, e.headers.value, e.data.value)
  }

  /** The sheets written for entries that are all complete, in order. */
  function WrittenAll(entries: seq<SheetInput>): (ss: seq<SheetState>)
    requires forall k :: 0 <= k < |entries| ==> Complete(entries[k])
    ensures |ss| == |entries|
  {
    seq(|entries|, k requires 0 <= k < |entries| => WrittenOf(entries[k]))
  }

  lemma WrittenAllSnoc(entries: seq<SheetInput>, i: nat)
    requires i < |entries| && forall k :: 0 <= k <= i ==> Complete(entries[k])
    ensures WrittenAll(entries[..i + 1]) == WrittenAll(entries[..i]) + [WrittenOf(entries[i])]
  {
  }

  /** The sheets hold, one by one, the given states. */
  ghost predicate Holds(sheets: seq<Sheet>, states: seq<SheetState>)
    reads sheets
  {
    |sheets| == |states| && forall k :: 0 <= k < |sheets| ==> sheets[k].State() == states[k]
  }

  /** Sheets holding more states extend what holds. */
  lemma HoldsConcat(sheets: seq<Sheet>, states: seq<SheetState>, more: seq<Sheet>, moreStates: seq<SheetState>)
    requires Holds(sheets, states) && Holds(more, moreStates)
    ensures Holds(sheets + more, states + moreStates)
  {
    forall k | 0 <= k < |sheets + more|
      ensures (sheets + more)[k].State() == (states + moreStates)[k]
    {
      if k < |sheets| {
        assert (sheets + more)[k] == sheets[k] && (states + moreStates)[k] == states[k];
      } else {
        assert (sheets + more)[k] == more[k - |sheets|] && (states + moreStates)[k] == moreStates[k - |sheets|];
      }
    }
  }

  /** One step of the multi-sheet loop: an entry missing a key raises
      KeyError before its sheet is made; otherwise a sheet is created under
      its name and written. */
  method WriteEntry(e: SheetInput) returns (added: seq<Sheet>, ok: bool)
    ensures ok <==> Writable(e)
    ensures ok ==> Holds(added, [WrittenOf(e)]) && forall s :: s in added ==> fresh(s)
  {
    added := [];
    if !Complete(e) {
      return [], false;
    }
    var ws;
    ws, ok := NewWrittenSheet(e.name.value, e.headers.value, e.data.value);
    if ok {
      added := [ws];
    }
  }

  /** The exporter object: it keeps the workbook of its last single-sheet
      export. */
  class ExcelExporter {
    var book: seq<Sheet>

    /** A new exporter holds a fresh workbook with its default sheet. */
    constructor ()
      ensures |book| == 1 && fresh(book[0]) && book[0].State() == SheetState("Sheet", [], None, map[])
    {
      var s := new Sheet("Sheet");
      book := [s];
    }

    /** `export_to_excel_bytes`: a new workbook whose one sheet gets the
        title, the headers (none is allowed) and the data; the exporter
        keeps that workbook before writing into it, so it keeps it even when
        openpyxl refuses a text or a value, which is reported as
        RuntimeError. The bytes are not modelled. */
    method ExportSingle(data: seq<seq<Value>>, headers: seq<string>, sheetName: string) returns (r: Outcome<Sheet>)
      modifies this
      ensures r.Raised? <==> !SheetWritable(headers, data)
      ensures r.Raised? ==> r.kind == "RuntimeError"
      ensures |book| == 1 && fresh(book[0]) && book[0].title == sheetName
      ensures r.Done? ==> r.value == book[0] && book[0].State() == Written(sheetName, headers, data)
    {
      var ws, ok := NewWrittenSheet(sheetName, headers, data);
      book := [ws];
      r := if ok then Done(ws) else Raised("RuntimeError");
    }

    /** The loop of `export_multi_sheet_excel_bytes`: one sheet per entry,
        in order, headers or not, until an entry misses a key or holds
        something openpyxl refuses. */
    method WriteEntries(inputs: seq<SheetInput>) returns (r: Outcome<seq<Sheet>>)
      ensures r.Raised? <==> exists i :: 0 <= i < |inputs| && !Writable(inputs[i])
      ensures r.Raised? ==> r.kind == "RuntimeError"
      ensures r.Done? ==> (forall i :: 0 <= i < |inputs| ==> Writable(inputs[i]))
                          && Holds(r.value, WrittenAll(inputs)) && forall s :: s in r.value ==> fresh(s)
    {
      var sheets: seq<Sheet> := [];
      var i := 0;
      while i < |inputs|
        invariant 0 <= i <= |inputs|
        invariant forall k :: 0 <= k < i ==> Writable(inputs[k])
        invariant Holds(sheets, WrittenAll(inputs[..i]))
        invariant forall s :: s in sheets ==> fresh(s)
      {
        var added, ok := WriteEntry(inputs[i]);
        if !ok {
          return Raised("RuntimeError");
        }
        WrittenAllSnoc(inputs, i);
        HoldsConcat(sheets, WrittenAll(inputs[..i]), added, [WrittenOf(inputs[i])]);
        sheets := sheets + added;
        i := i + 1;
      }
      assert inputs[..i] == inputs;
      r := Done(sheets);
    }

    /** `export_multi_sheet_excel_bytes`: the default sheet is removed, then
        the entries are written; an entry missing a key or holding a value
        openpyxl refuses, or a request with no entries at all (a workbook
        without sheets cannot be saved), ends the export with RuntimeError.
        The exporter's own workbook is untouched. */
    method ExportMulti(inputs: seq<SheetInput>) returns (r: Outcome<seq<Sheet>>)
      ensures r.Raised? <==> inputs == [] || exists i :: 0 <= i < |inputs| && !Writable(inputs[i])
      ensures r.Raised? ==> r.kind == "RuntimeError"
      ensures r.Done? ==>
                |r.value| == |inputs|
                && forall k :: 0 <= k < |inputs| ==>
                     fresh(r.value[k])
                     && r.value[k].State() == Written(inputs[k].name.value, inputs[k].headers.value, inputs[k].data.value)
    {
      r := WriteEntries(inputs);
      if r.Done? && r.value == [] {
        return Raised("RuntimeError");
      }
      if r.Done? {
        ghost var states := WrittenAll(inputs);
        forall k | 0 <= k < |inputs|
          ensures Complete(inputs[k]) && fresh(r.value[k])
                  && r.value[k].State() == Written(inputs[k].name.value, inputs[k].headers.value, inputs[k].data.value)
        {
          assert r.value[k] in r.value;
          assert r.value[k].State() == states[k];
        }
      }
    }
  }
}
