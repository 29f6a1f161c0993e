// The dashboard page script (static/js/dashboard_controls.js): which cards
// are shown, kept in localStorage as an object from card id to boolean; the
// click-to-sort summary tables; the saved order of the dragged cards; and
// which month requests are made and rendered.
module DashboardControls {
  import opened Common
  import opened JsonStore

  const VisibilityKey: string := "dashboardCardVisibility"
  const OrderKey: string := "dashboardCardOrder"

  // ================================================================ visibility

  /** `settings[id] !== false`: a card is shown unless its id maps to
      exactly false. */
  predicate Visible(settings: Settings, id: string)
  {
    Get(settings, id) != Some(false)
  }

  /** A missing id counts as visible; a saved id is visible iff it maps to
      true. */
  lemma VisibleCases(settings: Settings, id: string)
    requires IsObject(settings)
    ensures !HasKey(settings, id) ==> Visible(settings, id)
    ensures forall i :: 0 <= i < |settings| && settings[i].0 == id ==> (Visible(settings, id) <==> settings[i].1)
  {
  }

  /** `loadCardVisibility`: {} when nothing (or "") is stored, otherwise the
      parsed text; JSON.parse throwing is not caught here. */
  function LoadVisibility(st: Storage): (r: Outcome<Settings>)
    ensures !Stored(GetItem(st, VisibilityKey)) ==> r == Done([])
    ensures r.Raised? <==> Stored(GetItem(st, VisibilityKey)) && ParseSettings(st[VisibilityKey]).None?
    ensures r.Done? ==> IsObject(r.value)
  {
    var t := GetItem(st, VisibilityKey);
    if !Stored(t) then Done([])
    else match ParseSettings(t.value)
      case None => Raised("SyntaxError")
      case Some(o) => Done(o)
  }

  /** `saveCardVisibility`. */
  function SaveVisibility(st: Storage, o: Settings): Storage
  {
    st[VisibilityKey := StringifySettings(o)]
  }

  /** What was saved is what is loaded next. */
  lemma LoadAfterSave(st: Storage, o: Settings)
    requires IsObject(o)
    ensures LoadVisibility(SaveVisibility(st, o)) == Done(o)
  {
    SettingsRoundTrip(o);
    assert StringifySettings(o)[0] == '{';
  }

  /** The flags a loop over `ids` leaves in `m`: each listed id's flag is
      whether its visibility equals `shown`; other entries are kept. */
  function Marked(m: map<string, bool>, ids: seq<string>, settings: Settings, shown: bool): (r: map<string, bool>)
    ensures forall id :: id in r <==> id in m || id in ids
    ensures forall id :: id in ids ==> r[id] == (Visible(settings, id) == shown)
    ensures forall id :: id in m && id !in ids ==> r[id] == m[id]
    decreases |ids|
  {
    if ids == [] then m
    else
      var last := ids[|ids| - 1];
      Marked(m, ids[..|ids| - 1], settings, shown)[last := Visible(settings, last) == shown]
  }

  /** The map built when nothing is saved: each checkbox's card id to
      whether an element with that id exists. */
  function Defaults(boxes: seq<string>, present: set<string>): (o: Settings)
    ensures IsObject(o)
    ensures forall id :: id in boxes ==> Get(o, id) == Some(id in present)
    ensures forall id :: id !in boxes ==> Get(o, id).None?
    decreases |boxes|
  {
    if boxes == [] then []
    else
      var front := Defaults(boxes[..|boxes| - 1], present);
      var last := boxes[|boxes| - 1];
      PutUnique(front, last, last in present);
      Put(front, last, last in present)
  }

  /** The settings `initializeCardVisibility` applies: the loaded ones, or
      the defaults when the loaded object has no keys. */
  function Initial(st: Storage, boxes: seq<string>, present: set<string>): (r: Outcome<Settings>)
    ensures r.Raised? <==> LoadVisibility(st).Raised?
    ensures r.Done? ==> IsObject(r.value)
  {
    match LoadVisibility(st)
    case Raised(k) => Raised(k)
    case Done(s) => if s == [] then Done(Defaults(boxes, present)) else Done(s)
  }

  /** With nothing saved, a card is shown iff it has no checkbox or its
      checkbox names an existing element. */
  lemma InitialDefaults(st: Storage, boxes: seq<string>, present: set<string>, id: string)
    requires LoadVisibility(st) == Done([])
    ensures Initial(st, boxes, present).Done?
    ensures Visible(Initial(st, boxes, present).value, id) <==> id !in boxes || id in present
  {
    var o := Defaults(boxes, present);
    assert Initial(st, boxes, present) == Done(o);
    if id in boxes {
      assert Get(o, id) == Some(id in present);
    } else {
      assert Get(o, id).None?;
    }
  }

  /** The settings after a checkbox change: the loaded object with that one
      id set. */
  function Changed(st: Storage, value: string, isChecked: bool): (r: Outcome<Settings>)
    ensures r.Raised? <==> LoadVisibility(st).Raised?
    ensures r.Done? ==> IsObject(r.value)
  {
    match LoadVisibility(st)
    case Raised(k) => Raised(k)
    case Done(s) =>
      PutUnique(s, value, isChecked);
      Done(Put(s, value, isChecked))
  }

  /** A checkbox change sets its own id and leaves every other id's value
      as it was, as the next load sees it. */
  lemma ChangeTouchesOnlyThatId(st: Storage, value: string, isChecked: bool)
    requires LoadVisibility(st).Done?
    ensures LoadVisibility(SaveVisibility(st, Changed(st, value, isChecked).value)) == Changed(st, value, isChecked)
    ensures Get(Changed(st, value, isChecked).value, value) == Some(isChecked)
    ensures forall k :: k != value ==> Get(Changed(st, value, isChecked).value, k) == Get(LoadVisibility(st).value, k)
  {
    var c := Changed(st, value, isChecked);
    LoadAfterSave(st, c.value);
  }

  /** The page as the visibility code sees it. */
  class Page {
    var storage: Storage
    /** The ids of the grid's cards, in document order. */
    var grid: seq<string>
    /** The `card-hidden` class of each card. */
    var hidden: map<string, bool>
    /** The modal checkboxes' states, by value. */
    var checked: map<string, bool>
    /** The modal checkboxes' values. */
    const boxes: seq<string>
    /** The ids of all elements in the document. */
    const present: set<string>

    predicate Valid()
      reads this
    {
      Distinct(grid)
    }

    constructor (st: Storage, cards: seq<string>, checkboxes: seq<string>, ids: set<string>)
      requires Distinct(cards)
      ensures Valid()
      ensures storage == st && grid == cards && hidden == map[] && checked == map[]
      ensures boxes == checkboxes && present == ids
    {
      storage := st;
      grid := cards;
      hidden := map[];
      checked := map[];
      boxes := checkboxes;
      present := ids;
    }

    /** `applyVisibility`: every card of the grid gets `card-hidden` iff it
        is not visible. */
    method ApplyVisibility(settings: Settings)
      modifies this
      ensures hidden == Marked(old(hidden), grid, settings, false)
      ensures storage == old(storage) && grid == old(grid) && checked == old(checked)
    {
      var i := 0;
      while i < |grid|
        invariant 0 <= i <= |grid|
        invariant hidden == Marked(old(hidden), grid[..i], settings, false)
        invariant storage == old(storage) && grid == old(grid) && checked == old(checked)
      {
        assert grid[..i + 1][..i] == grid[..i];
        hidden := hidden[grid[i] := !Visible(settings, grid[i])];
        i := i + 1;
      }
      assert grid[..i] == grid;
    }

    /** `updateCheckboxStates`: each checkbox is checked iff its card is
        visible in the loaded settings. */
    method UpdateCheckboxStates() returns (r: Outcome<Settings>)
      modifies this
      ensures r == LoadVisibility(old(storage))
      ensures r.Raised? ==> checked == old(checked)
      ensures r.Done? ==> checked == Marked(old(checked), boxes, r.value, true)
      ensures storage == old(storage) && grid == old(grid) && hidden == old(hidden)
    {
      r := LoadVisibility(storage);
      if r.Raised? {
        return;
      }
      CheckBoxes(r.value);
    }

    /** The loop of `updateCheckboxStates`: each box is checked iff its card
        is visible in the given settings. */
    method CheckBoxes(settings: Settings)
      modifies this
      ensures checked == Marked(old(checked), boxes, settings, true)
      ensures storage == old(storage) && grid == old(grid) && hidden == old(hidden)
    {
      var i := 0;
      while i < |boxes|
        invariant 0 <= i <= |boxes|
        invariant checked == Marked(old(checked), boxes[..i], settings, true)
        invariant storage == old(storage) && grid == old(grid) && hidden == old(hidden)
      {
        assert boxes[..i + 1][..i] == boxes[..i];
        checked := checked[boxes[i] := Visible(settings, boxes[i])];
        i := i + 1;
      }
      assert boxes[..i] == boxes;
    }

    /** `initializeCardVisibility`: with no saved keys the defaults are
        built, saved and applied; otherwise the saved settings are applied;
        then the checkboxes follow. An unparsable saved text throws before
        anything changes. */
    method InitializeCardVisibility() returns (r: Outcome<Settings>)
      modifies this
      ensures r == Initial(old(storage), boxes, present)
      ensures r.Raised? ==> storage == old(storage) && hidden == old(hidden) && checked == old(checked)
      ensures r.Done? ==>
                storage == (if LoadVisibility(old(storage)) == Done([]) then SaveVisibility(old(storage), r.value) else old(storage))
      ensures r.Done? ==> hidden == Marked(old(hidden), grid, r.value, false)
      ensures r.Done? ==> checked == Marked(old(checked), boxes, r.value, true)
      ensures grid == old(grid)
    {
      var loaded := LoadVisibility(storage);
      if loaded.Raised? {
        return Raised(loaded.kind);
      }
      var settings := loaded.value;
      if settings == [] {
        var initial: Settings := [];
        var i := 0;
        while i < |boxes|
          invariant 0 <= i <= |boxes|
          invariant initial == Defaults(boxes[..i], present)
        {
          assert boxes[..i + 1][..i] == boxes[..i];
          initial := Put(initial, boxes[i], boxes[i] in present);
          i := i + 1;
        }
        assert boxes[..i] == boxes;
        LoadAfterSave(storage, initial);
        storage := SaveVisibility(storage, initial);
        ApplyVisibility(initial);
        settings := initial;
      } else {
        ApplyVisibility(settings);
      }
      var again := UpdateCheckboxStates();
      assert again == Done(settings);
      r := Done(settings);
    }

    /** A checkbox `change`: the loaded settings get that id set to the
        box's state, are saved and applied. */
    method OnCheckboxChange(value: string, isChecked: bool) returns (r: Outcome<Settings>)
      modifies this
      ensures r == Changed(old(storage), value, isChecked)
      ensures r.Raised? ==> storage == old(storage) && hidden == old(hidden)
      ensures r.Done? ==> storage == SaveVisibility(old(storage), r.value)
      ensures r.Done? ==> hidden == Marked(old(hidden), grid, r.value, false)
      ensures checked == old(checked) && grid == old(grid)
    {
      r := Changed(storage, value, isChecked);
      if r.Raised? {
        return;
      }
      storage := SaveVisibility(storage, r.value);
      ApplyVisibility(r.value);
    }

    /** The drag handler: the grid's new order (a reordering made by the
        drag library) is saved as an array of ids. */
    method OnDragEnd(newOrder: seq<string>)
      requires Valid() && Distinct(newOrder)
      requires forall id :: id in newOrder <==> id in grid
      modifies this
      ensures Valid()
      ensures grid == newOrder && storage == SaveOrder(old(storage), newOrder)
      ensures hidden == old(hidden) && checked == old(checked)
    {
      grid := newOrder;
      storage := SaveOrder(storage, grid);
    }

    /** The order restore of `initializeSortable`. */
    method RestoreOrder()
      requires Valid()
      modifies this
      ensures Valid()
      ensures (storage, grid) == Restored(old(storage), old(grid))
      ensures hidden == old(hidden) && checked == old(checked)
    {
      var saved := GetItem(storage, OrderKey);
      if !Stored(saved) {
        return;
      }
      var parsed := ParseIds(saved.value);
      if parsed.None? {
        storage := storage - {OrderKey};
        return;
      }
      var order := parsed.value;
      var valid := CompleteOrder(Kept(order, grid), grid);
      AppendAllPermutes(grid, valid);
      MoveCards(valid);
      if |order| != |valid| {
        storage := SaveOrder(storage, valid);
      }
    }

    /** `validOrder.forEach(... appendChild ...)`: each card in turn moves
        to the end of the grid. */
    method MoveCards(valid: seq<string>)
      modifies this
      ensures grid == AppendAll(old(grid), valid)
      ensures storage == old(storage) && hidden == old(hidden) && checked == old(checked)
    {
      var j := 0;
      while j < |valid|
        invariant 0 <= j <= |valid|
        invariant grid == AppendAll(old(grid), valid[..j])
        invariant storage == old(storage) && hidden == old(hidden) && checked == old(checked)
      {
        assert valid[..j + 1][..j] == valid[..j];
        grid := MoveToEnd(grid, valid[j]);
        j := j + 1;
      }
      assert valid[..j] == valid;
    }
  }

  // ================================================================ card order

  predicate Distinct(s: seq<string>)
  {
    forall i, j :: 0 <= i < j < |s| ==> s[i] != s[j]
  }

  /** `currentIds.forEach(id => { if (!validOrder.includes(id))
      validOrder.push(id); })`. */
  method CompleteOrder(kept: seq<string>, ids: seq<string>) returns (valid: seq<string>)
    ensures valid == Completed(kept, ids)
  {
    valid := kept;
    var i := 0;
    while i < |ids|
      invariant 0 <= i <= |ids|
      invariant valid == Completed(kept, ids[..i])
    {
      assert ids[..i + 1][..i] == ids[..i];
      if ids[i] !in valid {
        valid := valid + [ids[i]];
      }
      i := i + 1;
    }
    assert ids[..i] == ids;
  }

  /** The drag handler's save. */
  function SaveOrder(st: Storage, order: seq<string>): Storage
  {
    st[OrderKey := StringifyIds(order)]
  }

  /** `order.filter(id => currentIds.has(id))`. */
  function Kept(order: seq<string>, ids: seq<string>): (r: seq<string>)
    ensures forall x :: x in r <==> x in order && x in ids
    ensures |r| <= |order|
    ensures Distinct(order) ==> Distinct(r)
    decreases |order|
  {
    if order == [] then []
    else
      var front := Kept(order[..|order| - 1], ids);
      var last := order[|order| - 1];
      assert forall x :: x in order[..|order| - 1] ==> x in order;
      if last in ids then front + [last] else front
  }

  /** Every element of `s` except those in `xs`, in order. */
  function WithoutAll(s: seq<string>, xs: seq<string>): (r: seq<string>)
    ensures forall y :: y in r <==> y in s && y !in xs
    ensures |r| <= |s|
    decreases |s|
  {
    if s == [] then []
    else (if s[0] in xs then [] else [s[0]]) + WithoutAll(s[1..], xs)
  }

  /** Dropping elements keeps the others distinct. */
  lemma {:induction false} WithoutAllDistinct(s: seq<string>, xs: seq<string>)
    requires Distinct(s)
    ensures Distinct(WithoutAll(s, xs))
    decreases |s|
  {
    if s != [] {
      WithoutAllDistinct(s[1..], xs);
      var rest := WithoutAll(s[1..], xs);
      assert s[0] !in rest by {
        forall j | 0 < j < |s|
          ensures s[0] != s[j]
        {
        }
      }
      if s[0] !in xs {
        DistinctCons(s[0], rest);
      }
    }
  }

  lemma DistinctConcat(a: seq<string>, b: seq<string>)
    requires Distinct(a) && Distinct(b)
    requires forall y :: y in b ==> y !in a
    ensures Distinct(a + b)
  {
    var r := a + b;
    forall i, j | 0 <= i < j < |r|
      ensures r[i] != r[j]
    {
      if j >= |a| && i < |a| {
        assert r[j] == b[j - |a|] && r[i] == a[i];
        assert b[j - |a|] in b;
      } else if i >= |a| {
        assert r[j] == b[j - |a|] && r[i] == b[i - |a|];
      } else {
        assert r[j] == a[j] && r[i] == a[i];
      }
    }
  }

  lemma DistinctCons(x: string, w: seq<string>)
    requires Distinct(w) && x !in w
    ensures Distinct([x] + w)
  {
    var r := [x] + w;
    forall i, j | 0 <= i < j < |r|
      ensures r[i] != r[j]
    {
      assert r[j] == w[j - 1];
      if i > 0 {
        assert r[i] == w[i - 1];
      }
    }
  }

  /** The push loop: each id not yet in `valid` is appended, in page
      order. */
  function Completed(valid: seq<string>, ids: seq<string>): (r: seq<string>)
    ensures forall x :: x in r <==> x in valid || x in ids
    ensures |valid| <= |r| && r[..|valid|] == valid
    decreases |ids|
  {
    if ids == [] then valid
    else
      var v := Completed(valid, ids[..|ids| - 1]);
      var last := ids[|ids| - 1];
      if last in v then v else v + [last]
  }

  /** The order the restore applies: saved ids still on the page, then the
      page's other cards. */
  function ValidOrder(order: seq<string>, ids: seq<string>): (r: seq<string>)
    ensures forall x :: x in r <==> x in ids
  {
    Completed(Kept(order, ids), ids)
  }

  /** `appendChild` of a node already in the grid moves it to the end. */
  function MoveToEnd(s: seq<string>, x: string): seq<string>
  {
    WithoutAll(s, [x]) + [x]
  }

  /** The grid after appending each id of `xs` in turn. */
  function AppendAll(s: seq<string>, xs: seq<string>): seq<string>
    decreases |xs|
  {
    if xs == [] then s else MoveToEnd(AppendAll(s, xs[..|xs| - 1]), xs[|xs| - 1])
  }

  /** The storage and grid after the restore: nothing to do without a saved
      text; a text that does not parse is removed; otherwise the cards take
      the valid order and the order is saved again iff its length changed. */
  function Restored(st: Storage, grid: seq<string>): (Storage, seq<string>)
  {
    var saved := GetItem(st, OrderKey);
    if !Stored(saved) then (st, grid)
    else match ParseIds(saved.value)
      case None => (st - {OrderKey}, grid)
      case Some(order) =>
        var valid := ValidOrder(order, grid);
        (if |order| != |valid| then SaveOrder(st, valid) else st, AppendAll(grid, valid))
  }

  /** Moving cards that are all in the grid keeps its ids, each once. */
  lemma {:induction false} AppendAllPermutes(s: seq<string>, xs: seq<string>)
    requires Distinct(s)
    requires forall x :: x in xs ==> x in s
    ensures Distinct(AppendAll(s, xs))
    ensures forall y :: y in AppendAll(s, xs) <==> y in s
    decreases |xs|
  {
    if xs != [] {
      var front := xs[..|xs| - 1];
      assert forall x :: x in front ==> x in xs;
      AppendAllPermutes(s, front);
      var x := xs[|xs| - 1];
      var a := AppendAll(s, front);
      var w := WithoutAll(a, [x]);
      assert AppendAll(s, xs) == w + [x];
      assert x in a;
      assert x !in w;
      WithoutAllDistinct(a, [x]);
      DistinctSnoc(w, x);
    }
  }

  lemma DistinctSnoc(w: seq<string>, x: string)
    requires Distinct(w) && x !in w
    ensures Distinct(w + [x])
  {
    var r := w + [x];
    forall i, j | 0 <= i < j < |r|
      ensures r[i] != r[j]
    {
      if j == |w| {
        assert r[i] == w[i];
      } else {
        assert r[i] == w[i] && r[j] == w[j];
      }
    }
  }

  lemma {:induction false} WithoutConcat(a: seq<string>, b: seq<string>, xs: seq<string>)
    ensures WithoutAll(a + b, xs) == WithoutAll(a, xs) + WithoutAll(b, xs)
    decreases |a|
  {
    if a != [] {
      WithoutConcat(a[1..], b, xs);
      var head := if a[0] in xs then [] else [a[0]];
      var left, right := WithoutAll(a[1..], xs), WithoutAll(b, xs);
      assert WithoutAll(a + b, xs) == head + WithoutAll(a[1..] + b, xs) by {
        TailOfConcat(a, b);
      }
      assert head + (left + right) == (head + left) + right;
    } else {
      assert a + b == b;
    }
  }

  lemma {:induction false} WithoutNothing(a: seq<string>, xs: seq<string>)
    requires forall y :: y in a ==> y !in xs
    ensures WithoutAll(a, xs) == a
    decreases |a|
  {
    if a != [] {
      WithoutNothing(a[1..], xs);
      assert [a[0]] + a[1..] == a;
    }
  }

  lemma {:induction false} WithoutTwice(a: seq<string>, xs: seq<string>, x: string)
    ensures WithoutAll(WithoutAll(a, xs), [x]) == WithoutAll(a, xs + [x])
    decreases |a|
  {
    if a != [] {
      WithoutTwice(a[1..], xs, x);
      var head := if a[0] in xs then [] else [a[0]];
      WithoutConcat(head, WithoutAll(a[1..], xs), [x]);
    }
  }

  /** Appending distinct ids leaves the other cards first, in their order,
      and the appended ids last, in theirs. */
  lemma {:induction false} AppendAllShape(s: seq<string>, xs: seq<string>)
    requires Distinct(xs)
    ensures AppendAll(s, xs) == WithoutAll(s, xs) + xs
    decreases |xs|
  {
    if xs == [] {
      WithoutNothing(s, xs);
    } else {
      var front := xs[..|xs| - 1];
      var x := xs[|xs| - 1];
      assert front + [x] == xs;
      assert Distinct(front) by {
        forall i, j | 0 <= i < j < |front|
          ensures front[i] != front[j]
        {
          assert front[i] == xs[i] && front[j] == xs[j];
        }
      }
      AppendAllShape(s, front);
      var rest := WithoutAll(s, front);
      assert AppendAll(s, xs) == WithoutAll(rest + front, [x]) + [x];
      assert WithoutAll(rest + front, [x]) == WithoutAll(s, xs) + front by {
        assert forall y :: y in front ==> y !in [x] by {
          forall y | y in front
            ensures y !in [x]
          {
            var i :| 0 <= i < |front| && front[i] == y;
            assert xs[i] == y;
          }
        }
        WithoutConcat(rest, front, [x]);
        WithoutNothing(front, [x]);
        WithoutTwice(s, front, x);
      }
      assert (WithoutAll(s, xs) + front) + [x] == WithoutAll(s, xs) + xs;
    }
  }

  /** With the page's cards each once, the completed order lists them
      after the kept ones, in page order. */
  lemma {:induction false} CompletedShape(valid: seq<string>, ids: seq<string>)
    requires Distinct(ids)
    ensures Completed(valid, ids) == valid + WithoutAll(ids, valid)
    decreases |ids|
  {
    if ids != [] {
      var front := ids[..|ids| - 1];
      var x := ids[|ids| - 1];
      assert front + [x] == ids;
      assert Distinct(front) by {
        forall i, j | 0 <= i < j < |front|
          ensures front[i] != front[j]
        {
          assert front[i] == ids[i] && front[j] == ids[j];
        }
      }
      assert x !in front;
      CompletedShape(valid, front);
      WithoutConcat(front, [x], valid);
      var v := Completed(valid, front);
      assert WithoutAll([x], valid) == if x in valid then [] else [x] by {
        assert [x][1..] == [];
      }
      if x in valid {
        assert Completed(valid, ids) == v;
      } else {
        assert x !in v;
        assert Completed(valid, ids) == v + [x];
      }
    }
  }

  /** The restored grid holds exactly the page's cards, each once: stale
      saved ids are dropped and new cards are kept. */
  lemma RestoredIsPermutation(st: Storage, grid: seq<string>)
    requires Distinct(grid)
    ensures Distinct(Restored(st, grid).1)
    ensures forall id :: id in Restored(st, grid).1 <==> id in grid
  {
    var saved := GetItem(st, OrderKey);
    if Stored(saved) && ParseIds(saved.value).Some? {
      AppendAllPermutes(grid, ValidOrder(ParseIds(saved.value).value, grid));
    }
  }

  /** With a saved order that repeats no id, the cards follow it, and the
      cards it does not name come after, in page order. */
  lemma RestoredFollowsSavedOrder(st: Storage, grid: seq<string>, order: seq<string>)
    requires Distinct(grid) && Distinct(order)
    requires Stored(GetItem(st, OrderKey)) && ParseIds(st[OrderKey]) == Some(order)
    ensures Restored(st, grid).1 == Kept(order, grid) + WithoutAll(grid, order)
  {
    var kept := Kept(order, grid);
    CompletedShape(kept, grid);
    var valid := ValidOrder(order, grid);
    assert valid == kept + WithoutAll(grid, kept);
    assert WithoutAll(grid, kept) == WithoutAll(grid, order) by {
      WithoutSame(grid, kept, order);
    }
    WithoutAllDistinct(grid, kept);
    DistinctConcat(kept, WithoutAll(grid, kept));
    AppendAllShape(grid, valid);
    CoveredLeavesNothing(grid, valid);
  }

  /** Removing a list that covers `s` leaves nothing. */
  lemma {:induction false} CoveredLeavesNothing(s: seq<string>, xs: seq<string>)
    requires forall y :: y in s ==> y in xs
    ensures WithoutAll(s, xs) == []
    decreases |s|
  {
    if s != [] {
      CoveredLeavesNothing(s[1..], xs);
    }
  }

  /** Removing `a` or `b` from `s` is the same when they agree on `s`'s
      members. */
  lemma {:induction false} WithoutSame(s: seq<string>, a: seq<string>, b: seq<string>)
    requires forall y :: y in s ==> (y in a <==> y in b)
    ensures WithoutAll(s, a) == WithoutAll(s, b)
    decreases |s|
  {
    if s != [] {
      WithoutSame(s[1..], a, b);
    }
  }

  /** Restoring right after the drag handler saved the current order
      changes nothing. */
  lemma RestoreAfterSave(st: Storage, grid: seq<string>)
    requires Distinct(grid)
    ensures Restored(SaveOrder(st, grid), grid) == (SaveOrder(st, grid), grid)
  {
    var st2 := SaveOrder(st, grid);
    IdsRoundTrip(grid);
    assert StringifyIds(grid)[0] == '[';
    assert Kept(grid, grid) == grid by {
      KeptAll(grid, grid);
    }
    RestoredFollowsSavedOrder(st2, grid, grid);
    CompletedShape(grid, grid);
    CoveredLeavesNothing(grid, grid);
    assert grid + [] == grid;
  }

  /** Filtering by a list that holds every element keeps them all. */
  lemma {:induction false} KeptAll(order: seq<string>, ids: seq<string>)
    requires forall x :: x in order ==> x in ids
    ensures Kept(order, ids) == order
    decreases |order|
  {
    if order != [] {
      var front := order[..|order| - 1];
      assert forall x :: x in front ==> x in order;
      KeptAll(front, ids);
      assert front + [order[|order| - 1]] == order;
    }
  }

  // ================================================================ sorting

  /** A table's sort direction: 'none', 'asc', 'desc'. */
  datatype Direction = Unsorted | Asc | Desc

  datatype SortState = SortState(colIndex: int, direction: Direction)

  /** The state a table starts from. */
  const Fresh: SortState := SortState(-1, Unsorted)

  /** The state after a header click: descending iff the same column was
      ascending, else ascending; the column is the clicked one. */
  function NextState(prior: Option<SortState>, column: int): (s: SortState)
    ensures s.colIndex == column
    ensures s.direction == Desc <==> prior.Some? && prior.value.colIndex == column && prior.value.direction == Asc
    ensures s.direction == Asc <==> !(prior.Some? && prior.value.colIndex == column && prior.value.direction == Asc)
  {
    var st := if prior.None? then Fresh else prior.value;
    SortState(column, if column == st.colIndex && st.direction == Asc then Desc else Asc)
  }

  /** Clicking the same header again flips the direction. */
  lemma ClicksAlternate(prior: Option<SortState>, column: int)
    ensures NextState(Some(NextState(prior, column)), column).direction != NextState(prior, column).direction
  {
  }

  /** `data-sort-type`: 'number', or anything else (compared as text). */
  datatype SortType = Numeric | Textual

  /** A table cell: its text, and the number `parseFloat` reads from it
      once the thousands dots, " kWh" and decimal comma are cleaned (None
      for NaN). */
  datatype Cell = Cell(text: string, number: Option<int>)

  /** The td cells of a row. */
  type Row = seq<Cell>

  /** What `getCellValue` returns: -Infinity, a number or a text. */
  datatype Key = NegInf | Num(n: int) | Word(w: string)

  predicate OfKind(k: Key, t: SortType)
  {
    if t == Numeric then !k.Word? else k.Word?
  }

  /** `getCellValue`: in number mode -Infinity for a missing or
      non-numeric cell, else its number; in text mode the trimmed,
      lower-cased text, "" for a missing cell. */
  function CellValue(row: Row, column: int, t: SortType): (k: Key)
    ensures OfKind(k, t)
    ensures t == Numeric ==> (k == NegInf <==> !(0 <= column < |row|) || row[column].number.None?)
    ensures t == Numeric && k.Num? ==> 0 <= column < |row| && row[column].number == Some(k.n)
    ensures t == Textual ==> k.w == if 0 <= column < |row| then Lower(Trim(row[column].text)) else ""
  {
    if !(0 <= column < |row|) then (if t == Numeric then NegInf else Word(""))
    else if t == Numeric then (match row[column].number case None => NegInf case Some(n) => Num(n))
    else Word(Lower(Trim(row[column].text)))
  }

  /** The letter a character counts as under `sensitivity: 'base'`: case
      is ignored, and so are the accents of the Latin-1 letters that are a
      base letter plus a combining mark (á, ç, ñ, ü, ...); every other
      character stands for itself. */
  function BaseLetter(c: char): (r: char)
    ensures !IsUpper(r)
    ensures !IsUpper(c) && c < '\U{00C0}' ==> r == c
    ensures r != c ==> IsLower(r)
  {
    if IsUpper(c) then LowerChar(c)
    else if '\U{00C0}' <= c <= '\U{00C5}' || '\U{00E0}' <= c <= '\U{00E5}' then 'a'
    else if c == '\U{00C7}' || c == '\U{00E7}' then 'c'
    else if '\U{00C8}' <= c <= '\U{00CB}' || '\U{00E8}' <= c <= '\U{00EB}' then 'e'
    else if '\U{00CC}' <= c <= '\U{00CF}' || '\U{00EC}' <= c <= '\U{00EF}' then 'i'
    else if c == '\U{00D1}' || c == '\U{00F1}' then 'n'
    else if '\U{00D2}' <= c <= '\U{00D6}' || '\U{00F2}' <= c <= '\U{00F6}' then 'o'
    else if '\U{00D9}' <= c <= '\U{00DC}' || '\U{00F9}' <= c <= '\U{00FC}' then 'u'
    else if c == '\U{00DD}' || c == '\U{00FD}' || c == '\U{00FF}' then 'y'
    else c
  }

  /** The text with every character replaced by its base letter. */
  function Folded(s: string): (r: string)
    ensures |r| == |s|
    ensures forall i :: 0 <= i < |s| ==> r[i] == BaseLetter(s[i])
  {
    seq(|s|, i requires 0 <= i < |s| => BaseLetter(s[i]))
  }

  /** Folding twice folds no further, and lower-casing first changes
      nothing. */
  lemma FoldedIdempotent(s: string)
    ensures Folded(Folded(s)) == Folded(s)
    ensures Folded(Lower(s)) == Folded(s)
  {
  }

  /** The ascending comparison: numbers subtract (two -Infinity give NaN,
      which the sort takes as equal); texts compare as
      `localeCompare(b, 'pt-BR', {sensitivity: 'base'})`, by their base
      letters, and texts with the same base letters are equal. */
  function Compare(a: Key, b: Key): (c: int)
    ensures a == NegInf && b.Num? ==> c < 0
    ensures a.Num? && b.Num? ==> (c <= 0 <==> a.n <= b.n)
    ensures a.Word? && b.Word? ==> (c <= 0 <==> StrLe(Folded(a.w), Folded(b.w)))
    ensures a.Word? && b.Word? ==> (c == 0 <==> Folded(a.w) == Folded(b.w))
  {
    match (a, b)
    case (NegInf, NegInf) => 0
    case (NegInf, Num(_)) => -1
    case (Num(_), NegInf) => 1
    case (Num(x), Num(y)) => x - y
    case (Word(x), Word(y)) =>
      var fx, fy := Folded(x), Folded(y);
      if fx == fy then StrLeRefl(fx); 0
      else if StrLe(fx, fy) then -1
      else 1
    case _ => 0
  }

  /** Case and accents do not separate two texts. */
  lemma AccentsAndCaseTie()
    ensures Compare(Word("água"), Word("agua")) == 0
    ensures Compare(Word("São"), Word("sao")) == 0
  {
    assert Folded("água") == "agua" == Folded("agua");
    assert Folded("São") == "sao" == Folded("sao");
  }

  /** Different base letters order two texts alphabetically, whatever
      accents come before them. */
  lemma BaseLettersOrder()
    ensures Compare(Word("são"), Word("se")) < 0
  {
    assert Folded("são") == "sao";
    assert Folded("se") == "se";
    assert !StrLe("se", "sao") by {
      assert "se"[1..] == "e" && "sao"[1..] == "ao";
    }
  }

  /** The comparator given to the sort: the ascending one, negated unless
      the direction is 'asc'. */
  function DirCompare(d: Direction, a: Key, b: Key): (c: int)
    ensures d == Asc ==> c == Compare(a, b)
    ensures d != Asc ==> c == -Compare(a, b)
  {
    if d == Asc then Compare(a, b) else -Compare(a, b)
  }

  lemma CompareAntisymmetric(a: Key, b: Key)
    ensures Compare(b, a) == -Compare(a, b)
  {
    if a.Word? && b.Word? {
      StrLeTotal(Folded(a.w), Folded(b.w));
      if StrLe(Folded(a.w), Folded(b.w)) && StrLe(Folded(b.w), Folded(a.w)) {
        StrLeAntisymmetric(Folded(a.w), Folded(b.w));
      }
    }
  }

  lemma CompareTransitive(a: Key, b: Key, c: Key, t: SortType)
    requires OfKind(a, t) && OfKind(b, t) && OfKind(c, t)
    requires Compare(a, b) <= 0 && Compare(b, c) <= 0
    ensures Compare(a, c) <= 0
  {
    if t == Textual {
      StrLeTrans(Folded(a.w), Folded(b.w), Folded(c.w));
    }
  }

  /** Descending order is ascending order read backwards. */
  lemma DescendingReversesAscending(a: Key, b: Key)
    ensures DirCompare(Desc, a, b) <= 0 <==> DirCompare(Asc, b, a) <= 0
  {
    CompareAntisymmetric(a, b);
  }

  predicate Before(d: Direction, a: Key, b: Key)
  {
    DirCompare(d, a, b) <= 0
  }

  lemma BeforeTotal(d: Direction, a: Key, b: Key)
    ensures Before(d, a, b) || Before(d, b, a)
  {
    CompareAntisymmetric(a, b);
  }

  lemma BeforeTransitive(d: Direction, a: Key, b: Key, c: Key, t: SortType)
    requires OfKind(a, t) && OfKind(b, t) && OfKind(c, t)
    requires Before(d, a, b) && Before(d, b, c)
    ensures Before(d, a, c)
  {
    if d == Asc {
      CompareTransitive(a, b, c, t);
    } else {
      CompareAntisymmetric(a, b);
      CompareAntisymmetric(b, c);
      CompareAntisymmetric(a, c);
      CompareTransitive(c, b, a, t);
    }
  }

  /** The comparator accepts every pair of rows in their order. */
  predicate Ordered(rows: seq<Row>, column: int, t: SortType, d: Direction)
  {
    forall i, j :: 0 <= i < j < |rows| ==> Before(d, CellValue(rows[i], column, t), CellValue(rows[j], column, t))
  }

  lemma PrependOrdered(h: Row, rows: seq<Row>, column: int, t: SortType, d: Direction)
    requires Ordered(rows, column, t, d)
    requires forall y :: y in rows ==> Before(d, CellValue(h, column, t), CellValue(y, column, t))
    ensures Ordered([h] + rows, column, t, d)
  {
    var r := [h] + rows;
    forall i, j | 0 <= i < j < |r|
      ensures Before(d, CellValue(r[i], column, t), CellValue(r[j], column, t))
    {
      if i > 0 {
        assert r[i] == rows[i - 1] && r[j] == rows[j - 1];
      } else {
        assert r[j] in rows;
      }
    }
  }

  /** A row that may precede the first of ordered rows may precede them
      all. */
  lemma InsertFront(x: Row, rows: seq<Row>, column: int, t: SortType, d: Direction)
    requires Ordered(rows, column, t, d) && rows != []
    requires Before(d, CellValue(x, column, t), CellValue(rows[0], column, t))
    ensures Ordered([x] + rows, column, t, d)
  {
    var kx := CellValue(x, column, t);
    var k0 := CellValue(rows[0], column, t);
    forall y | y in rows
      ensures Before(d, kx, CellValue(y, column, t))
    {
      var j :| 0 <= j < |rows| && rows[j] == y;
      if j > 0 {
        BeforeTransitive(d, kx, k0, CellValue(y, column, t), t);
      }
    }
    PrependOrdered(x, rows, column, t, d);
  }

  /** The first of ordered rows stays first when `x` goes further in. */
  lemma InsertLater(x: Row, rows: seq<Row>, rest: seq<Row>, column: int, t: SortType, d: Direction)
    requires Ordered(rows, column, t, d) && rows != []
    requires !Before(d, CellValue(x, column, t), CellValue(rows[0], column, t))
    requires Ordered(rest, column, t, d)
    requires forall y :: y in rest ==> y == x || y in rows[1..]
    ensures Ordered([rows[0]] + rest, column, t, d)
  {
    var k0 := CellValue(rows[0], column, t);
    BeforeTotal(d, CellValue(x, column, t), k0);
    forall y | y in rest
      ensures Before(d, k0, CellValue(y, column, t))
    {
      if y != x {
        var j :| 0 <= j < |rows[1..]| && rows[1..][j] == y;
        assert rows[j + 1] == y;
      }
    }
    PrependOrdered(rows[0], rest, column, t, d);
  }

  /** `rows.forEach(row => tbody.appendChild(row))` on an emptied body:
      the body ends up holding the rows in that order. */
  method AppendRows(rows: seq<Row>) returns (body: seq<Row>)
    ensures body == rows
  {
    body := [];
    var i := 0;
    while i < |rows|
      invariant 0 <= i <= |rows|
      invariant body == rows[..i]
    {
      body := body + [rows[i]];
      i := i + 1;
    }
    assert rows[..i] == rows;
  }

  /** Puts `x` before the first row it may precede. */
  function InsertRow(x: Row, rows: seq<Row>, column: int, t: SortType, d: Direction): (r: seq<Row>)
    requires Ordered(rows, column, t, d)
    ensures Ordered(r, column, t, d)
    ensures multiset(r) == multiset(rows) + multiset{x}
    ensures forall y :: y in r ==> y == x || y in rows
    decreases |rows|
  {
    if rows == [] then [x]
    else if Before(d, CellValue(x, column, t), CellValue(rows[0], column, t)) then
      InsertFront(x, rows, column, t, d);
      [x] + rows
    else
      var rest := InsertRow(x, rows[1..], column, t, d);
      InsertLater(x, rows, rest, column, t, d);
      assert rows == [rows[0]] + rows[1..];
      [rows[0]] + rest
  }

  /** The rows in the comparator's order (the sort keeps rows that compare
      equal in their original order). */
  function SortRows(rows: seq<Row>, column: int, t: SortType, d: Direction): (r: seq<Row>)
    ensures Ordered(r, column, t, d)
    ensures multiset(r) == multiset(rows)
    decreases |rows|
  {
    if rows == [] then []
    else
      assert rows == [rows[0]] + rows[1..];
      InsertRow(rows[0], SortRows(rows[1..], column, t, d), column, t, d)
  }

  /** What the comparator sees of a key: two keys of one sort type
      compare equal exactly when these agree. */
  function Norm(k: Key): Key
  {
    match k
    case Word(w) => Word(Folded(w))
    case _ => k
  }

  lemma CompareZero(a: Key, b: Key, t: SortType)
    requires OfKind(a, t) && OfKind(b, t)
    ensures Compare(a, b) == 0 <==> Norm(a) == Norm(b)
  {
  }

  /** The rows whose key compares equal to the key `k`, in order. */
  function Ties(rows: seq<Row>, column: int, t: SortType, k: Key): (r: seq<Row>)
    ensures forall y :: y in r ==> y in rows && Norm(CellValue(y, column, t)) == k
    decreases |rows|
  {
    if rows == [] then []
    else (if Norm(CellValue(rows[0], column, t)) == k then [rows[0]] else []) + Ties(rows[1..], column, t, k)
  }

  function TieOf(y: Row, column: int, t: SortType, k: Key): seq<Row>
  {
    if Norm(CellValue(y, column, t)) == k then [y] else []
  }

  lemma TiesCons(y: Row, rows: seq<Row>, column: int, t: SortType, k: Key)
    ensures Ties([y] + rows, column, t, k) == TieOf(y, column, t, k) + Ties(rows, column, t, k)
  {
    assert ([y] + rows)[1..] == rows;
  }

  /** Two pieces of which at least one is empty may swap. */
  lemma SwapEmpty(a: seq<Row>, b: seq<Row>, c: seq<Row>)
    requires a == [] || b == []
    ensures b + (a + c) == a + (b + c)
  {
    assert [] + c == c;
  }

  /** Inserting `x` puts it ahead of every row that compares equal to it. */
  lemma {:induction false} InsertRowTies(x: Row, rows: seq<Row>, column: int, t: SortType, d: Direction, k: Key)
    requires Ordered(rows, column, t, d)
    ensures Ties(InsertRow(x, rows, column, t, d), column, t, k) == TieOf(x, column, t, k) + Ties(rows, column, t, k)
    decreases |rows|
  {
    var kx := CellValue(x, column, t);
    if rows == [] {
      TiesCons(x, [], column, t, k);
    } else if Before(d, kx, CellValue(rows[0], column, t)) {
      TiesCons(x, rows, column, t, k);
    } else {
      InsertRowTies(x, rows[1..], column, t, d, k);
      PassedRowTies(x, rows, InsertRow(x, rows[1..], column, t, d), column, t, d, k);
    }
  }

  /** The step of `InsertRowTies` where `x` goes past the first row: that
      row cannot compare equal to `x`, so the two may trade places among
      the ties. */
  lemma PassedRowTies(x: Row, rows: seq<Row>, rest: seq<Row>, column: int, t: SortType, d: Direction, k: Key)
    requires rows != [] && !Before(d, CellValue(x, column, t), CellValue(rows[0], column, t))
    requires Ties(rest, column, t, k) == TieOf(x, column, t, k) + Ties(rows[1..], column, t, k)
    ensures Ties([rows[0]] + rest, column, t, k) == TieOf(x, column, t, k) + Ties(rows, column, t, k)
  {
    CompareZero(CellValue(x, column, t), CellValue(rows[0], column, t), t);
    TiesCons(rows[0], rest, column, t, k);
    TiesCons(rows[0], rows[1..], column, t, k);
    assert rows == [rows[0]] + rows[1..];
    SwapEmpty(TieOf(x, column, t, k), TieOf(rows[0], column, t, k), Ties(rows[1..], column, t, k));
  }

  /** The sort is stable: rows that compare equal keep their input order. */
  lemma {:induction false} SortRowsStable(rows: seq<Row>, column: int, t: SortType, d: Direction, k: Key)
    ensures Ties(SortRows(rows, column, t, d), column, t, k) == Ties(rows, column, t, k)
    decreases |rows|
  {
    if rows != [] {
      SortRowsStable(rows[1..], column, t, d, k);
      InsertRowTies(rows[0], SortRows(rows[1..], column, t, d), column, t, d, k);
      TiesCons(rows[0], rows[1..], column, t, k);
      assert rows == [rows[0]] + rows[1..];
    }
  }

  /** A tbody: how many rows without a td it holds, and its td rows. */
  datatype TBody = TBody(bare: nat, rows: seq<Row>)

  /** A table: its tbody if any, and its sortable headers by
      `data-column-index` with their `data-sort-type`. */
  datatype Table = Table(body: Option<TBody>, columns: map<int, SortType>)

  /** The sort states and tables after `sortTable(id, column, t)`: nothing
      without a tbody; otherwise the state moves on even when there is no
      data row, and data rows are put in the comparator's order after at
      most one row without a td. */
  function Click(state: map<string, SortState>, tables: map<string, Table>, id: string, column: int, t: SortType)
    : (r: (map<string, SortState>, map<string, Table>))
    ensures !(id in tables && tables[id].body.Some?) ==> r == (state, tables)
    ensures id in tables && tables[id].body.Some? ==>
              r.0 == state[id := NextState(if id in state then Some(state[id]) else None, column)]
    ensures id in tables && tables[id].body.Some? && tables[id].body.value.rows == [] ==> r.1 == tables
    ensures id in tables && tables[id].body.Some? && tables[id].body.value.rows != [] ==>
              id in r.1 && r.1[id].body.Some?
              && Ordered(r.1[id].body.value.rows, column, t, r.0[id].direction)
              && multiset(r.1[id].body.value.rows) == multiset(tables[id].body.value.rows)
              && r.1[id].body.value.bare <= 1
              && r.1[id].columns == tables[id].columns
              && r.1 == tables[id := r.1[id]]
  {
    if !(id in tables && tables[id].body.Some?) then (state, tables)
    else
      var s := NextState(if id in state then Some(state[id]) else None, column);
      var b := tables[id].body.value;
      if b.rows == [] then (state[id := s], tables)
      else
        var body := TBody(if b.bare > 0 then 1 else 0, SortRows(b.rows, column, t, s.direction));
        (state[id := s], tables[id := tables[id].(body := Some(body))])
  }

  /** The states and tables after `reapplySort(id)`. */
  function Reapplied(state: map<string, SortState>, tables: map<string, Table>, id: string)
    : (map<string, SortState>, map<string, Table>)
  {
    if id in state && state[id].colIndex != -1 && state[id].direction != Unsorted
       && id in tables && state[id].colIndex in tables[id].columns then
      var s := state[id];
      var t := tables[id].columns[s.colIndex];
      var first := Click(state[id := Fresh], tables, id, s.colIndex, t);
      if first.0[id].direction != s.direction then Click(first.0, first.1, id, s.colIndex, t) else first
    else (state, tables)
  }

  /** Re-sorting a table that has its header and a tbody leaves every sort
      state as it was. */
  lemma ReapplyKeepsState(state: map<string, SortState>, tables: map<string, Table>, id: string)
    requires id in state && state[id].colIndex != -1 && state[id].direction != Unsorted
    requires id in tables && state[id].colIndex in tables[id].columns && tables[id].body.Some?
    ensures Reapplied(state, tables, id).0 == state
  {
    var s := state[id];
    var t := tables[id].columns[s.colIndex];
    var first := Click(state[id := Fresh], tables, id, s.colIndex, t);
    assert first.0 == state[id := SortState(s.colIndex, Asc)];
    if s.direction == Asc {
      assert state[id := s] == state;
    } else {
      assert first.1[id].body.Some?;
      var second := Click(first.0, first.1, id, s.colIndex, t);
      assert second.0 == state[id := SortState(s.colIndex, Desc)];
      assert state[id := s] == state;
    }
  }

  /** ... and leaves the rows reordered by that state's column and
      direction. */
  lemma ReapplyOrdersRows(state: map<string, SortState>, tables: map<string, Table>, id: string)
    requires id in state && state[id].colIndex != -1 && state[id].direction != Unsorted
    requires id in tables && state[id].colIndex in tables[id].columns && tables[id].body.Some?
    requires tables[id].body.value.rows != []
    ensures var r := Reapplied(state, tables, id).1;
            id in r && r[id].body.Some?
            && multiset(r[id].body.value.rows) == multiset(tables[id].body.value.rows)
            && Ordered(r[id].body.value.rows, state[id].colIndex, tables[id].columns[state[id].colIndex], state[id].direction)
  {
    var s := state[id];
    var t := tables[id].columns[s.colIndex];
    var first := Click(state[id := Fresh], tables, id, s.colIndex, t);
    assert first.0[id] == SortState(s.colIndex, Asc);
    if s.direction != Asc {
      assert first.1[id].body.Some? && first.1[id].body.value.rows != [];
      var second := Click(first.0, first.1, id, s.colIndex, t);
      assert second.0[id] == SortState(s.colIndex, Desc);
    }
  }

  /** A table that has the header but no tbody loses its sort state. */
  lemma ReapplyWithoutBody(state: map<string, SortState>, tables: map<string, Table>, id: string)
    requires id in state && state[id].colIndex != -1 && state[id].direction != Unsorted
    requires id in tables && state[id].colIndex in tables[id].columns && tables[id].body.None?
    ensures Reapplied(state, tables, id) == (state[id := Fresh], tables)
  {
  }

  /** The tables' sort states and contents. */
  class Sorter {
    var state: map<string, SortState>
    var tables: map<string, Table>

    constructor (ts: map<string, Table>)
      ensures state == map[] && tables == ts
    {
      state := map[];
      tables := ts;
    }

    /** `sortTable`. */
    method SortTable(id: string, column: int, t: SortType)
      modifies this
      ensures (state, tables) == Click(old(state), old(tables), id, column, t)
    {
      if !(id in tables && tables[id].body.Some?) {
        return;
      }
      var prior := if id in state then Some(state[id]) else None;
      var s := NextState(prior, column);
      state := state[id := s];
      var b := tables[id].body.value;
      if b.rows == [] {
        return;
      }
      var sorted := SortRows(b.rows, column, t, s.direction);
      var rebuilt := AppendRows(sorted);
      tables := tables[id := tables[id].(body := Some(TBody(if b.bare > 0 then 1 else 0, rebuilt)))];
    }

    /** `reapplySort`: a table sorted before is sorted again by the same
        column and direction, by clicking its header once or twice. */
    method ReapplySort(id: string)
      modifies this
      ensures (state, tables) == Reapplied(old(state), old(tables), id)
    {
      if id in state && state[id].colIndex != -1 && state[id].direction != Unsorted {
        if id in tables && state[id].colIndex in tables[id].columns {
          var column := state[id].colIndex;
          var t := tables[id].columns[column];
          var original := state[id].direction;
          state := state[id := Fresh];
          SortTable(id, column, t);
          if state[id].direction != original {
            SortTable(id, column, t);
          }
        }
      }
    }
  }

  // ================================================================ month data

  /** The five month requests of `updateDashboardData`. */
  datatype Request = SummaryForn | SummaryConc | KpiKwh | KpiAtivos | KpiRegistrados

  /** The card whose visibility `fetchData` checks for each request. */
  function CardOf(q: Request): (id: string)
    ensures q.KpiAtivos? || q.KpiRegistrados? ==> id == "card-kpi-clientes-mes"
  {
    match q
    case SummaryForn => "card-table-fornecedora"
    case SummaryConc => "card-table-concessionaria"
    case KpiKwh => "card-kpi-resultado-mes"
    case KpiAtivos => "card-kpi-clientes-mes"
    case KpiRegistrados => "card-kpi-clientes-mes"
  }

  /** `fetchData` returns null without fetching iff its card maps to
      exactly false. */
  predicate Skipped(settings: Settings, q: Request)
  {
    Get(settings, CardOf(q)) == Some(false)
  }

  /** What a summary table's tbody shows after an update. */
  datatype TableBody = Loading | Filled(rows: nat) | NoData | Failure

  /** A summary table as written: the loading row is written whatever the
      visibility, a failed request anywhere in the batch turns it into the
      error row, and the rows are drawn only when the card's id maps to
      true (a truthiness test). `response` is the row count the request
      returned, None when it failed. */
  function SummaryBodyAsWritten(settings: Settings, q: Request, response: Option<nat>, batchFailed: bool): TableBody
  {
    if batchFailed || (!Skipped(settings, q) && response.None?) then Failure
    else if Get(settings, CardOf(q)) != Some(true) then Loading
    else if response.value > 0 then Filled(response.value) else NoData
  }

  /** A summary table with the drawing step guarded by the same visibility
      test as the fetch. */
  function SummaryBody(settings: Settings, q: Request, response: Option<nat>, batchFailed: bool): (b: TableBody)
    ensures batchFailed ==> b == Failure
    ensures !batchFailed && response.Some? ==>
              (b == Loading <==> !Visible(settings, CardOf(q)))
    ensures !batchFailed && response.Some? && Visible(settings, CardOf(q)) ==>
              b == if response.value > 0 then Filled(response.value) else NoData
  {
    if batchFailed || (!Skipped(settings, q) && response.None?) then Failure
    else if !Visible(settings, CardOf(q)) then Loading
    else if response.value > 0 then Filled(response.value) else NoData
  }

  /** As written, a card whose id is missing from saved settings is shown
      and its data fetched, yet its table stays on the loading row. */
  lemma MissingIdStaysLoading()
    ensures var settings := [("card-table-concessionaria", true)];
            Visible(settings, CardOf(SummaryForn))
            && !Skipped(settings, SummaryForn)
            && SummaryBodyAsWritten(settings, SummaryForn, Some(3), false) == Loading
            && SummaryBody(settings, SummaryForn, Some(3), false) == Filled(3)
  {
    var settings := [("card-table-concessionaria", true)];
    assert settings[0].0 != CardOf(SummaryForn);
    assert !HasKey(settings, CardOf(SummaryForn));
    assert Get(settings, CardOf(SummaryForn)) == None;
    assert Visible(settings, CardOf(SummaryForn));
    assert SummaryBodyAsWritten(settings, SummaryForn, Some(3), false) == Loading;
  }

  /** The two agree whenever the card's id is saved. */
  lemma SavedIdsAgree(settings: Settings, q: Request, response: Option<nat>, batchFailed: bool)
    requires HasKey(settings, CardOf(q))
    ensures SummaryBodyAsWritten(settings, q, response, batchFailed) == SummaryBody(settings, q, response, batchFailed)
  {
    var g := Get(settings, CardOf(q));
    assert g.Some? && g == Some(g.value);
    assert g.value || !g.value;
  }
}
