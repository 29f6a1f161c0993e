// The card configuration modal (static/js/dashboard_card_visibility.js):
// cards are named by their `data-id`, their visibility object lives in
// localStorage, a hidden card gets `display: none`, and the modal lists one
// checkbox per card.
module CardVisibility {
  import opened Common
  import opened JsonStore

  const VisibilityKey: string := "dashboardCardVisibility"

  /** The names the modal shows for the known cards; None for any other
      id. */
  function CardLabel(id: string): (l: Option<string>)
    ensures l.Some? ==> l.value != ""
  {
    if id == "kpi-resultado-mes" then Some("Resultado do Mês (kWh vendidos)")
    else if id == "kpi-clientes-mes" then Some("Clientes do Mês (Registrados/Ativados)")
    else if id == "chart-evolucao-ativacoes" then Some("Evolução de Ativações (Gráfico)")
    else if id == "summary-fornecedora" then Some("Resumo por Fornecedora")
    else if id == "summary-concessionaria" then Some("Resumo por Região/Concessionária")
    else if id == "pie-fornecedora" then Some("Clientes Ativos por Fornecedora (Gráfico Pizza)")
    else if id == "bar-concessionaria" then Some("Top 8 Regiões/Concessionárias (Gráfico Barras)")
    else if id == "summary-fornecedora-no-rcb" then Some("Fornecedoras s/ RCB")
    else if id == "chart-vencidos" then Some("Pagamentos Vencidos s/ Baixa")
    else None
  }

  /** `cardLabels[cardId] || cardId`: the known name, else the id itself. */
  function Label(id: string): string
  {
    match CardLabel(id)
    case Some(l) => l
    case None => id
  }

  /** Every known card shows its name and any other card its id; so only a
      card with an empty id gets an empty caption. */
  lemma LabelKnownOrId(id: string)
    ensures CardLabel(id).Some? ==> Label(id) == CardLabel(id).value
    ensures CardLabel(id).None? ==> Label(id) == id
    ensures Label(id) != "" || id == ""
  {
  }

  /** Every listed card mapped to true, in page order. */
  function AllShown(cards: seq<string>): (o: Settings)
    ensures IsObject(o)
    ensures forall id :: id in cards ==> Get(o, id) == Some(true)
    ensures forall id :: id !in cards ==> Get(o, id).None?
    decreases |cards|
  {
    if cards == [] then []
    else
      var front := AllShown(cards[..|cards| - 1]);
      PutUnique(front, cards[|cards| - 1], true);
      Put(front, cards[|cards| - 1], true)
  }

  /** What `loadCardVisibility` returns: all cards shown when nothing (or
      "") is stored, {} when the stored text does not parse, else the
      parsed object. */
  function Loaded(st: Storage, cards: seq<string>): (o: Settings)
    ensures IsObject(o)
    ensures !Stored(GetItem(st, VisibilityKey)) ==> o == AllShown(cards)
    ensures Stored(GetItem(st, VisibilityKey)) && ParseSettings(st[VisibilityKey]).None? ==> o == []
    ensures Stored(GetItem(st, VisibilityKey)) && ParseSettings(st[VisibilityKey]).Some? ==>
              o == ParseSettings(st[VisibilityKey]).value
  {
    var t := GetItem(st, VisibilityKey);
    if !Stored(t) then AllShown(cards)
    else match ParseSettings(t.value)
      case None => []
      case Some(o) => o
  }

  /** With nothing saved every card is shown; with an unparsable text too,
      since {} hides nothing. */
  lemma LoadedShowsAll(st: Storage, cards: seq<string>, id: string)
    requires !Stored(GetItem(st, VisibilityKey)) || ParseSettings(st[VisibilityKey]).None?
    ensures Get(Loaded(st, cards), id) != Some(false)
  {
    if !Stored(GetItem(st, VisibilityKey)) {
      if id in cards {
        assert Get(AllShown(cards), id) == Some(true);
      } else {
        assert Get(AllShown(cards), id).None?;
      }
    }
  }

  /** `localStorage.setItem` of the object's JSON text. */
  function Save(st: Storage, o: Settings): Storage
  {
    st[VisibilityKey := StringifySettings(o)]
  }

  /** A saved object is exactly what the next load returns: the old
      settings play no part. */
  lemma LoadAfterSave(st: Storage, cards: seq<string>, o: Settings)
    requires IsObject(o)
    ensures Loaded(Save(st, o), cards) == o
  {
    SettingsRoundTrip(o);
    assert StringifySettings(o)[0] == '{';
  }

  /** The inline display each card gets: 'none' iff its value is exactly
      false, else '' (the stylesheet's own). */
  function Displays(m: map<string, string>, cards: seq<string>, v: Settings): (r: map<string, string>)
    ensures forall id :: id in r <==> id in m || id in cards
    ensures forall id :: id in cards ==> (r[id] == "none" <==> Get(v, id) == Some(false))
    ensures forall id :: id in cards ==> (r[id] == "" <==> Get(v, id) != Some(false))
    ensures forall id :: id in m && id !in cards ==> r[id] == m[id]
    decreases |cards|
  {
    if cards == [] then m
    else
      var last := cards[|cards| - 1];
      Displays(m, cards[..|cards| - 1], v)[last := if Get(v, last) == Some(false) then "none" else ""]
  }

  /** One row of the modal: the card it names, its caption and its box. */
  datatype CheckRow = CheckRow(cardId: string, caption: string, checked: bool)

  /** The rows `populateConfigModal` builds: one per card, checked iff the
      card's value is not exactly false. */
  function ModalRows(cards: seq<string>, v: Settings): (rows: seq<CheckRow>)
    ensures |rows| == |cards|
    decreases |cards|
  {
    if cards == [] then []
    else
      var last := cards[|cards| - 1];
      ModalRows(cards[..|cards| - 1], v) + [CheckRow(last, Label(last), Get(v, last) != Some(false))]
  }

  /** Row i names card i, shows its label and is checked iff the card's
      value is not exactly false. */
  lemma {:induction false} ModalRowAt(cards: seq<string>, v: Settings, i: nat)
    requires i < |cards|
    ensures ModalRows(cards, v)[i] == CheckRow(cards[i], Label(cards[i]), Get(v, cards[i]) != Some(false))
    decreases |cards|
  {
    if i < |cards| - 1 {
      ModalRowAt(cards[..|cards| - 1], v, i);
    }
  }

  /** The object the save handler builds: each row's card id to its box's
      state, assigned in order. */
  function FromRows(rows: seq<CheckRow>): (o: Settings)
    ensures IsObject(o)
    decreases |rows|
  {
    if rows == [] then []
    else
      var front := FromRows(rows[..|rows| - 1]);
      var last := rows[|rows| - 1];
      PutUnique(front, last.cardId, last.checked);
      Put(front, last.cardId, last.checked)
  }

  /** The state of the last row naming `id`, if any: what `id` reads in
      the object the rows build. */
  function LastChecked(rows: seq<CheckRow>, id: string): Option<bool>
    decreases |rows|
  {
    if rows == [] then None
    else if rows[|rows| - 1].cardId == id then Some(rows[|rows| - 1].checked)
    else LastChecked(rows[..|rows| - 1], id)
  }

  /** Each id reads the state of the last row that names it. */
  lemma {:induction false} FromRowsGet(rows: seq<CheckRow>, id: string)
    ensures Get(FromRows(rows), id) == LastChecked(rows, id)
    decreases |rows|
  {
    if rows != [] {
      var front, last := rows[..|rows| - 1], rows[|rows| - 1];
      assert rows == front + [last];
      FromRowsGet(front, id);
      FromRowsSnoc(front, last);
      PutGet(FromRows(front), last.cardId, last.checked, id);
    }
  }

  /** Saving the modal as it was filled keeps every card's visibility and
      drops every other id. */
  lemma {:induction false} ModalRoundTrip(cards: seq<string>, v: Settings, id: string)
    ensures id in cards ==> Get(FromRows(ModalRows(cards, v)), id) == Some(Get(v, id) != Some(false))
    ensures id !in cards ==> Get(FromRows(ModalRows(cards, v)), id).None?
  {
    FromRowsGet(ModalRows(cards, v), id);
    ModalLastChecked(cards, v, id);
  }

  /** The rows of the modal name each card once, in order. */
  lemma {:induction false} ModalLastChecked(cards: seq<string>, v: Settings, id: string)
    ensures id in cards ==> LastChecked(ModalRows(cards, v), id) == Some(Get(v, id) != Some(false))
    ensures id !in cards ==> LastChecked(ModalRows(cards, v), id).None?
    decreases |cards|
  {
    if cards != [] {
      var front, last := cards[..|cards| - 1], cards[|cards| - 1];
      var b := Get(v, last) != Some(false);
      var prev := ModalRows(front, v);
      var rows := prev + [CheckRow(last, Label(last), b)];
      assert ModalRows(cards, v) == rows;
      assert rows[..|rows| - 1] == prev;
      ModalLastChecked(front, v, id);
      if id != last {
        InFront(cards, id);
      }
    }
  }

  /** An id other than the last card is a card iff it is among the others. */
  lemma InFront(cards: seq<string>, id: string)
    requires cards != [] && id != cards[|cards| - 1]
    ensures id in cards <==> id in cards[..|cards| - 1]
  {
    assert cards == cards[..|cards| - 1] + [cards[|cards| - 1]];
  }

  /** One more row assigns its box's state to its card. */
  lemma FromRowsSnoc(rows: seq<CheckRow>, row: CheckRow)
    ensures FromRows(rows + [row]) == Put(FromRows(rows), row.cardId, row.checked)
  {
    assert (rows + [row])[..|rows|] == rows;
  }

  /** The `forEach` that fills the modal, one row per card. */
  method BuildRows(cards: seq<string>, v: Settings) returns (rows: seq<CheckRow>)
    ensures rows == ModalRows(cards, v)
  {
    rows := [];
    var i := 0;
    while i < |cards|
      invariant 0 <= i <= |cards|
      invariant rows == ModalRows(cards[..i], v)
    {
      assert cards[..i + 1][..i] == cards[..i];
      var id := cards[i];
      rows := rows + [CheckRow(id, Label(id), Get(v, id) != Some(false))];
      i := i + 1;
    }
    assert cards[..i] == cards;
  }

  /** The page's configuration controls. */
  class Dashboard {
    var storage: Storage
    /** The inline display of each card, by `data-id`. */
    var display: map<string, string>
    /** The modal's rows, as last filled. */
    var rows: seq<CheckRow>
    /** The `data-id`s of the container's cards, in document order. */
    const cards: seq<string>
    /** Whether the button, modal, container, list and save button all
        exist. */
    const ready: bool

    constructor (st: Storage, ids: seq<string>, complete: bool)
      ensures storage == st && display == map[] && rows == [] && cards == ids && ready == complete
    {
      storage := st;
      display := map[];
      rows := [];
      cards := ids;
      ready := complete;
    }

    /** `loadCardVisibility`. */
    method LoadCardVisibility() returns (o: Settings)
      ensures o == Loaded(storage, cards)
    {
      var saved := GetItem(storage, VisibilityKey);
      if !Stored(saved) {
        o := [];
        var i := 0;
        while i < |cards|
          invariant 0 <= i <= |cards|
          invariant o == AllShown(cards[..i])
        {
          assert cards[..i + 1][..i] == cards[..i];
          o := Put(o, cards[i], true);
          i := i + 1;
        }
        assert cards[..i] == cards;
      } else {
        var parsed := ParseSettings(saved.value);
        o := if parsed.None? then [] else parsed.value;
      }
    }

    /** `applyCardVisibility`: with no object the saved one is loaded. */
    method ApplyCardVisibility(given: Option<Settings>)
      modifies this
      ensures display == Displays(old(display), cards, if given.Some? then given.value else Loaded(storage, cards))
      ensures storage == old(storage) && rows == old(rows)
    {
      var v: Settings;
      if given.None? {
        v := LoadCardVisibility();
      } else {
        v := given.value;
      }
      var i := 0;
      while i < |cards|
        invariant 0 <= i <= |cards|
        invariant display == Displays(old(display), cards[..i], v)
        invariant storage == old(storage) && rows == old(rows)
      {
        assert cards[..i + 1][..i] == cards[..i];
        display := display[cards[i] := if Get(v, cards[i]) == Some(false) then "none" else ""];
        i := i + 1;
      }
      assert cards[..i] == cards;
    }

    /** `saveCardVisibility`: the object replaces the saved one and is
        applied. */
    method SaveCardVisibility(v: Settings)
      modifies this
      ensures storage == Save(old(storage), v)
      ensures display == Displays(old(display), cards, v)
      ensures rows == old(rows)
    {
      storage := Save(storage, v);
      ApplyCardVisibility(Some(v));
    }

    /** `populateConfigModal`: without the list element nothing happens;
        otherwise the list is rebuilt, one row per card. */
    method PopulateConfigModal()
      modifies this
      ensures ready ==> rows == ModalRows(cards, Loaded(storage, cards))
      ensures !ready ==> rows == old(rows)
      ensures storage == old(storage) && display == old(display)
    {
      if ready {
        var current := LoadCardVisibility();
        rows := BuildRows(cards, current);
      }
    }

    /** A click on a row flips its box exactly once: on the input the
        browser's own toggle does it and the handler leaves the box alone;
        anywhere else the handler flips it and cancels the default, so a
        click on the label does not flip it back. */
    method RowClick(index: nat)
      requires index < |rows|
      modifies this
      ensures rows == old(rows)[index := old(rows)[index].(checked := !old(rows)[index].checked)]
      ensures storage == old(storage) && display == old(display)
    {
      var row := rows[index];
      rows := rows[index := row.(checked := !row.checked)];
    }

    /** The save button: a new object from every row's box replaces the
        saved one, and is applied. */
    method SaveConfig()
      modifies this
      ensures storage == Save(old(storage), FromRows(old(rows)))
      ensures display == Displays(old(display), cards, FromRows(old(rows)))
      ensures rows == old(rows)
    {
      var v: Settings := [];
      var i := 0;
      while i < |rows|
        invariant 0 <= i <= |rows|
        invariant v == FromRows(rows[..i])
      {
        assert rows[..i + 1][..i] == rows[..i];
        v := Put(v, rows[i].cardId, rows[i].checked);
        i := i + 1;
      }
      assert rows[..i] == rows;
      SaveCardVisibility(v);
    }

    /** `initializeCardVisibilityControls`: with every element present the
        saved visibility is applied; otherwise nothing happens. */
    method Initialize()
      modifies this
      ensures display == if ready then Displays(old(display), cards, Loaded(storage, cards)) else old(display)
      ensures storage == old(storage) && rows == old(rows)
    {
      if ready {
        ApplyCardVisibility(None);
      }
    }
  }
}
