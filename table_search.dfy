// The report table filter of the shared page script (static/js/script.js):
// on every input in the search box each body row of `#dataTable` is shown
// when one of its cells contains the typed text, case-insensitively, and
// hidden otherwise.
module TableSearch {
  import opened Common

  /** The texts of one row's `td` cells, in order. */
  type RowCells = seq<string>

  /** `cell.textContent.toLowerCase().includes(value.toLowerCase())`. */
  predicate CellMatches(cell: string, term: string)
  {
    Contains(Lower(cell), Lower(term))
  }

  /** The row's `match` flag after the loop over its cells. */
  predicate RowMatches(cells: RowCells, term: string)
  {
    exists i :: 0 <= i < |cells| && CellMatches(cells[i], term)
  }

  /** The inline display the handler gives one row. */
  function RowDisplay(cells: RowCells, term: string): (d: string)
    ensures d == "" || d == "none"
    ensures d == "" <==> RowMatches(cells, term)
  {
    if RowMatches(cells, term) then "" else "none"
  }

  /** The displays of all rows after one input event. */
  function Filtered(rows: seq<RowCells>, term: string): (ds: seq<string>)
    ensures |ds| == |rows|
    ensures forall i :: 0 <= i < |rows| ==> ds[i] == RowDisplay(rows[i], term)
    decreases |rows|
  {
    if rows == [] then []
    else Filtered(rows[..|rows| - 1], term) + [RowDisplay(rows[|rows| - 1], term)]
  }

  /** Every text contains the empty text. */
  lemma ContainsEmpty(s: string)
    ensures Contains(s, "")
  {
    assert OccursAt(s, "", 0);
  }

  /** An empty search shows exactly the rows that have at least one cell. */
  lemma EmptyTermShowsRowsWithCells(rows: seq<RowCells>)
    ensures forall i :: 0 <= i < |rows| ==> (Filtered(rows, "")[i] == "" <==> |rows[i]| > 0)
  {
    forall i | 0 <= i < |rows|
      ensures Filtered(rows, "")[i] == "" <==> |rows[i]| > 0
    {
      if |rows[i]| > 0 {
        ContainsEmpty(Lower(rows[i][0]));
        assert Lower("") == "";
        assert CellMatches(rows[i][0], "");
      }
    }
  }

  /** A row without cells (a header-only or empty `tr`) is hidden whatever
      is typed. */
  lemma RowsWithoutCellsHidden(rows: seq<RowCells>, term: string, i: int)
    requires 0 <= i < |rows| && rows[i] == []
    ensures Filtered(rows, term)[i] == "none"
  {
  }

  /** The filter only looks at the text case-insensitively: typing the
      term in capitals changes nothing. */
  lemma {:induction false} CaseInsensitive(rows: seq<RowCells>, term: string)
    ensures Filtered(rows, Upper(term)) == Filtered(rows, term)
  {
    LowerOfUpper(term);
    assert Lower(Upper(term)) == Lower(term);
    forall i | 0 <= i < |rows|
      ensures RowDisplay(rows[i], Upper(term)) == RowDisplay(rows[i], term)
    {
      assert forall c :: CellMatches(c, Upper(term)) == CellMatches(c, term);
    }
  }

  /** The inner `forEach` over a row's cells: the flag is set by any
      matching cell and never cleared. */
  method MatchRow(cells: RowCells, term: string) returns (found: bool)
    ensures found <==> RowMatches(cells, term)
  {
    var needle := Lower(term);
    found := false;
    var j := 0;
    while j < |cells|
      invariant 0 <= j <= |cells|
      invariant found <==> exists k :: 0 <= k < j && CellMatches(cells[k], term)
    {
      if Contains(Lower(cells[j]), needle) {
        found := true;
      }
      j := j + 1;
    }
  }

  /** The page as the script sees it. */
  class SearchPage {
    /** The inline display of each body row. */
    var display: seq<string>
    /** The cells of each body row. */
    const rows: seq<RowCells>
    /** Whether both `#tableSearch` and the table's `tbody` were found, so
        that the input listener was attached. */
    const listening: bool

    constructor (body: seq<RowCells>, hasInput: bool, hasBody: bool)
      ensures rows == body && listening == (hasInput && hasBody)
      ensures |display| == |body| && forall i :: 0 <= i < |body| ==> display[i] == ""
    {
      rows := body;
      listening := hasInput && hasBody;
      display := seq(|body|, i => "");
    }

    /** One `input` event with the box holding `value`: without the listener
        nothing changes; otherwise every row is shown or hidden by its
        cells. */
    method OnInput(value: string)
      modifies this
      ensures listening ==> display == Filtered(rows, value)
      ensures !listening ==> display == old(display)
    {
      if !listening {
        return;
      }
      var ds: seq<string> := [];
      var i := 0;
      while i < |rows|
        invariant 0 <= i <= |rows|
        invariant ds == Filtered(rows[..i], value)
      {
        assert rows[..i + 1][..i] == rows[..i];
        var found := MatchRow(rows[i], value);
        ds := ds + [if found then "" else "none"];
        i := i + 1;
      }
      assert rows[..i] == rows;
      display := ds;
    }
  }
}
