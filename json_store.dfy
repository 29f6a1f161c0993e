// The browser's localStorage (a map from key to text) and the two JSON
// shapes the dashboard scripts keep in it: an object from card id to
// boolean, and an array of card ids. JSON.stringify and JSON.parse are
// modelled for exactly these shapes.
module JsonStore {
  import opened Common

  /** localStorage: key to text. */
  type Storage = map<string, string>

  /** `localStorage.getItem(key)`: the text, or null. */
  function GetItem(st: Storage, key: string): (r: Option<string>)
    ensures r.Some? <==> key in st
    ensures r.Some? ==> r.value == st[key]
  {
    if key in st then Some(st[key]) else None
  }

  /** A JavaScript truth test of a stored text: null and "" are falsy. */
  predicate Stored(t: Option<string>)
  {
    t.Some? && t.value != ""
  }

  // ------------------------------------------------------------ strings

  /** The short escape JSON.stringify and JSON.parse share for a character,
      written after the backslash: the quote, the backslash and five
      control characters (backspace, tab, line feed, form feed, carriage
      return). */
  function ShortEscape(c: char): (r: Option<char>)
  {
    if c == '"' || c == '\\' then Some(c)
    else if c == 8 as char then Some('b')
    else if c == '\t' then Some('t')
    else if c == '\n' then Some('n')
    else if c == 12 as char then Some('f')
    else if c == '\r' then Some('r')
    else None
  }

  /** The character a JSON.parse short escape stands for; `\/` is accepted
      on reading although JSON.stringify never writes it. */
  function Unescape(e: char): (r: Option<char>)
  {
    if e == '"' || e == '\\' || e == '/' then Some(e)
    else if e == 'b' then Some(8 as char)
    else if e == 't' then Some('\t')
    else if e == 'n' then Some('\n')
    else if e == 'f' then Some(12 as char)
    else if e == 'r' then Some('\r')
    else None
  }

  /** A lower-case hexadecimal digit, as JSON.stringify writes it. */
  function HexDigit(n: nat): (c: char)
    requires n < 16
  {
    if n < 10 then ('0' as int + n) as char else ('a' as int + n - 10) as char
  }

  /** The value of a hexadecimal digit in either case. */
  function HexValue(c: char): (r: Option<nat>)
    ensures r.Some? ==> r.value < 16
  {
    if '0' <= c <= '9' then Some(c as int - '0' as int)
    else if 'a' <= c <= 'f' then Some(c as int - 'a' as int + 10)
    else if 'A' <= c <= 'F' then Some(c as int - 'A' as int + 10)
    else None
  }

  /** The value of the four hexadecimal digits of a `\u` escape. */
  function HexQuad(q: string): (r: Option<nat>)
    requires |q| == 4
    ensures r.Some? ==> r.value < 0x1_0000
  {
    match (HexValue(q[0]), HexValue(q[1]), HexValue(q[2]), HexValue(q[3]))
    case (Some(a), Some(b), Some(c), Some(d)) => Some(4096 * a + 256 * b + 16 * c + d)
    case _ => None
  }

  /** One character as JSON.stringify writes it inside a string literal:
      its short escape when it has one, `\u00` and two hexadecimal digits
      for any other control character below U+0020, and the character
      itself otherwise. */
  function EscapeChar(c: char): (e: string)
    ensures |e| > 0 && e[0] != '"'
    ensures forall i :: 0 <= i < |e| ==> e[i] as int >= 0x20
    ensures c as int >= 0x20 && c != '"' && c != '\\' ==> e == [c]
  {
    match ShortEscape(c)
    case Some(s) => ['\\', s]
    case None =>
      if c as int < 0x20 then ['\\', 'u', '0', '0', HexDigit(c as int / 16), HexDigit(c as int % 16)]
      else [c]
  }

  /** A string's characters as JSON.stringify writes them between quotes;
      the text is never shorter. */
  function Escape(s: string): (e: string)
    ensures |e| >= |s|
  {
    if s == [] then [] else EscapeChar(s[0]) + Escape(s[1..])
  }

  /** No raw control character is left in a written string body, which
      JSON.parse would refuse. */
  lemma {:induction false} EscapedPrintable(s: string)
    ensures forall i :: 0 <= i < |Escape(s)| ==> Escape(s)[i] as int >= 0x20
  {
    if s != [] {
      EscapedPrintable(s[1..]);
      var e, rest := EscapeChar(s[0]), Escape(s[1..]);
      assert Escape(s) == e + rest;
      assert forall i :: |e| <= i < |e + rest| ==> (e + rest)[i] == rest[i - |e|];
    }
  }

  /** A JSON string literal. */
  function Quote(s: string): string
  {
    "\"" + Escape(s) + "\""
  }

  /** Reads one character of a string literal's body (not its closing
      quote): a raw control character, an unknown escape or a cut-off one
      is refused, as JSON.parse refuses it. */
  function ReadChar(t: string): (r: Option<(char, string)>)
    requires |t| > 0 && t[0] != '"'
    ensures r.Some? ==> |r.value.1| < |t|
    ensures t[0] as int < 0x20 ==> r.None?
    ensures t[0] == '\\' && |t| >= 2 && t[1] != 'u' ==> (r.Some? <==> Unescape(t[1]).Some?)
  {
    if t[0] as int < 0x20 then None
    else if t[0] != '\\' then Some((t[0], t[1..]))
    else if |t| < 2 then None
    else if t[1] == 'u' then
      if |t| < 6 then None
      else match HexQuad(t[2..6])
        case None => None
        case Some(n) => if 0xD800 <= n < 0xE000 then None else Some((n as char, t[6..]))
    else match Unescape(t[1])
      case None => None
      case Some(c) => Some((c, t[2..]))
  }

  /** Reads a string literal's body up to its closing quote: the text it
      denotes and what follows the quote. */
  function ReadString(t: string): (r: Option<(string, string)>)
    ensures r.Some? ==> |r.value.1| < |t|
    decreases |t|
  {
    if t == [] then None
    else if t[0] == '"' then Some(([], t[1..]))
    else match ReadChar(t)
      case None => None
      case Some(p) =>
        match ReadString(p.1)
        case None => None
        case Some(q) => Some(([p.0] + q.0, q.1))
  }

  /** The hexadecimal digits JSON.stringify writes read back as their
      value. */
  lemma HexDigitValue(n: nat)
    requires n < 16
    ensures HexValue(HexDigit(n)) == Some(n)
  {
  }

  /** A written character reads back as itself and leaves what follows. */
  lemma ReadCharEscaped(c: char, tail: string)
    ensures |EscapeChar(c) + tail| > 0 && (EscapeChar(c) + tail)[0] != '"'
    ensures ReadChar(EscapeChar(c) + tail) == Some((c, tail))
  {
    var t := EscapeChar(c) + tail;
    if ShortEscape(c).None? && c as int < 0x20 {
      var hi, lo := c as int / 16, c as int % 16;
      HexDigitValue(hi);
      HexDigitValue(lo);
      assert t[2..6] == ['0', '0', HexDigit(hi), HexDigit(lo)];
      assert t[6..] == tail;
    } else if ShortEscape(c).Some? {
      assert t[2..] == tail;
    } else {
      assert t[1..] == tail;
    }
  }

  /** Reading an escaped string gives the string back and stops right
      after its closing quote. */
  lemma {:induction false} ReadEscaped(s: string, rest: string)
    ensures ReadString(Escape(s) + "\"" + rest) == Some((s, rest))
  {
    var t := Escape(s) + "\"" + rest;
    if s == [] {
      assert t == "\"" + rest;
    } else {
      ReadEscaped(s[1..], rest);
      var tail := Escape(s[1..]) + "\"" + rest;
      assert t == EscapeChar(s[0]) + tail;
      ReadCharEscaped(s[0], tail);
      assert [s[0]] + s[1..] == s;
    }
  }

  /** The control characters JSON.stringify escapes: the line feed gets
      its short escape and U+0001 its `\u` form, and both read back. */
  lemma ControlEscapes()
    ensures Escape("\n") == "\\n"
    ensures Escape([1 as char]) == "\\u0001"
    ensures ReadString("\\u0001\"") == Some(([1 as char], ""))
  {
    assert Escape([1 as char]) == EscapeChar(1 as char) + Escape([]);
    ReadEscaped([1 as char], "");
  }

  // ------------------------------------------------------------ objects of booleans

  /** A JavaScript object from card id to boolean, keys in property
      order. */
  type Settings = seq<(string, bool)>

  predicate UniqueKeys(o: Settings)
  {
    forall i, j :: 0 <= i < j < |o| ==> o[i].0 != o[j].0
  }

  /** A key JavaScript treats as an array index: "0" or digits without a
      leading zero, below 2^32 - 1. */
  predicate IsIndex(k: string)
  {
    && |k| > 0 && AllDigits(k)
    && (k[0] == '0' ==> |k| == 1)
    && DigitsValue(k) < 0xFFFF_FFFF
  }

  /** `a` is an array index no greater than the array index `k`. */
  predicate IndexAtMost(a: string, k: string)
    requires IsIndex(k)
  {
    IsIndex(a) && DigitsValue(a) <= DigitsValue(k)
  }

  /** The order in which an ordinary JavaScript object lists its keys:
      every array index before every other key, the array indices in
      ascending numeric order, the other keys in the order they were
      added. */
  predicate PropertyOrder(o: Settings)
  {
    forall i, j :: 0 <= i < j < |o| && IsIndex(o[j].0) ==> IndexAtMost(o[i].0, o[j].0)
  }

  /** The shape of every object the scripts hold: unique keys in property
      order. */
  predicate IsObject(o: Settings)
  {
    UniqueKeys(o) && PropertyOrder(o)
  }

  predicate HasKey(o: Settings, k: string)
  {
    exists i :: 0 <= i < |o| && o[i].0 == k
  }

  /** `o[k]`: the value, or undefined. */
  function Get(o: Settings, k: string): (r: Option<bool>)
    ensures r.None? <==> !HasKey(o, k)
    ensures r.Some? ==> exists i :: 0 <= i < |o| && o[i] == (k, r.value)
    ensures UniqueKeys(o) ==> forall i :: 0 <= i < |o| && o[i].0 == k ==> r == Some(o[i].1)
  {
    if o == [] then None
    else if o[0].0 == k then Some(o[0].1)
    else
      var r := Get(o[1..], k);
      assert forall i :: 1 <= i < |o| ==> o[i] == o[1..][i - 1];
      r
  }

  /** Where a new array-index key goes: after the leading array indices
      that are no greater than it. */
  function IndexSlot(o: Settings, k: string): (p: nat)
    requires IsIndex(k)
    ensures p <= |o|
    ensures forall i :: 0 <= i < p ==> IndexAtMost(o[i].0, k)
    ensures p < |o| ==> !IndexAtMost(o[p].0, k)
  {
    if o == [] || !IndexAtMost(o[0].0, k) then 0
    else
      var p := IndexSlot(o[1..], k);
      assert forall i :: 1 <= i < |o| ==> o[i] == o[1..][i - 1];
      1 + p
  }

  /** `o[k] = v`: `k` reads `v` and every other key reads as before. Where
      the key goes is stated by PutPlaces. */
  function Put(o: Settings, k: string, v: bool): (r: Settings)
    ensures Get(r, k) == Some(v)
    ensures forall k' :: k' != k ==> Get(r, k') == Get(o, k')
  {
    if !HasKey(o, k) && IsIndex(k) then
      var p := IndexSlot(o, k);
      InsertGet(o, p, (k, v));
      o[..p] + [(k, v)] + o[p..]
    else
      Assign(o, k, v)
  }

  /** Where `o[k] = v` puts the key: an existing key leaves every key in
      its place; a new array index goes in its numeric place among the
      array indices, ahead of every other key; any other new key goes
      last. */
  lemma PutPlaces(o: Settings, k: string, v: bool)
    ensures HasKey(o, k) ==> |Put(o, k, v)| == |o| && forall i :: 0 <= i < |o| ==> Put(o, k, v)[i].0 == o[i].0
    ensures !HasKey(o, k) && !IsIndex(k) ==> Put(o, k, v) == o + [(k, v)]
    ensures !HasKey(o, k) && IsIndex(k) ==> Put(o, k, v) == o[..IndexSlot(o, k)] + [(k, v)] + o[IndexSlot(o, k)..]
  {
  }

  /** What a key reads after `o[k] = v`. */
  lemma PutGet(o: Settings, k: string, v: bool, k': string)
    ensures Get(Put(o, k, v), k') == if k' == k then Some(v) else Get(o, k')
  {
  }

  /** A member put at position `p` of an object that lacks its key reads
      as its value, and every other key reads as before. */
  lemma {:induction false} InsertGet(o: Settings, p: nat, m: (string, bool))
    requires p <= |o| && !HasKey(o, m.0)
    ensures Get(o[..p] + [m] + o[p..], m.0) == Some(m.1)
    ensures forall k' :: k' != m.0 ==> Get(o[..p] + [m] + o[p..], k') == Get(o, k')
    decreases p
  {
    var r := o[..p] + [m] + o[p..];
    if p == 0 {
      assert r == [m] + o && r[1..] == o;
    } else {
      assert !HasKey(o[1..], m.0) by {
        forall i | 0 <= i < |o[1..]| ensures o[1..][i].0 != m.0 { assert o[1..][i] == o[i + 1]; }
      }
      InsertGet(o[1..], p - 1, m);
      assert r[0] == o[0] && o[0].0 != m.0;
      assert r[1..] == o[1..][..p - 1] + [m] + o[1..][p - 1..];
    }
  }

  /** Assignment as a plain list update: an existing key keeps its place,
      a new one goes last. */
  function Assign(o: Settings, k: string, v: bool): (r: Settings)
    ensures AssignResult(o, k, v, r)
  {
    if o == [] then [(k, v)]
    else if o[0].0 == k then
      AssignFirst(o, k, v);
      [(k, v)] + o[1..]
    else
      var rest := Assign(o[1..], k, v);
      AssignCons(o, k, v, rest);
      [o[0]] + rest
  }

  ghost predicate AssignResult(o: Settings, k: string, v: bool, r: Settings)
  {
    && Get(r, k) == Some(v)
    && (forall k' :: k' != k ==> Get(r, k') == Get(o, k'))
    && (HasKey(o, k) ==> |r| == |o|)
    && (!HasKey(o, k) ==> r == o + [(k, v)])
    && (forall i :: 0 <= i < |o| ==> r[i].0 == o[i].0)
  }

  lemma AssignFirst(o: Settings, k: string, v: bool)
    requires o != [] && o[0].0 == k
    ensures AssignResult(o, k, v, [(k, v)] + o[1..])
  {
    var r := [(k, v)] + o[1..];
    assert r[1..] == o[1..];
    assert HasKey(o, k) by { assert o[0].0 == k; }
    forall k' | k' != k
      ensures Get(r, k') == Get(o, k')
    {
      assert Get(r, k') == Get(o[1..], k');
    }
  }

  lemma AssignCons(o: Settings, k: string, v: bool, rest: Settings)
    requires o != [] && o[0].0 != k
    requires AssignResult(o[1..], k, v, rest)
    ensures AssignResult(o, k, v, [o[0]] + rest)
  {
    var r := [o[0]] + rest;
    assert r[1..] == rest;
    assert Get(r, k) == Get(rest, k);
    assert Get(o, k) == Get(o[1..], k);
    forall k' | k' != k
      ensures Get(r, k') == Get(o, k')
    {
      if k' != o[0].0 {
        assert Get(r, k') == Get(rest, k');
        assert Get(o, k') == Get(o[1..], k');
      }
    }
    if !HasKey(o, k) {
      assert [o[0]] + (o[1..] + [(k, v)]) == o + [(k, v)];
    }
    forall i | 0 <= i < |o|
      ensures r[i].0 == o[i].0
    {
      if i > 0 {
        assert r[i] == rest[i - 1] && o[i] == o[1..][i - 1];
      }
    }
  }

  /** A new array index put in its slot keeps the keys unique and in
      property order. */
  lemma InsertIsObject(o: Settings, k: string, v: bool)
    requires IsObject(o) && IsIndex(k) && !HasKey(o, k)
    ensures IsObject(o[..IndexSlot(o, k)] + [(k, v)] + o[IndexSlot(o, k)..])
  {
    var p := IndexSlot(o, k);
    InsertUnique(o, p, (k, v));
    InsertOrdered(o, p, (k, v));
  }

  /** Inserting a member whose key is new keeps the keys unique. */
  lemma InsertUnique(o: Settings, p: nat, m: (string, bool))
    requires UniqueKeys(o) && p <= |o| && !HasKey(o, m.0)
    ensures UniqueKeys(o[..p] + [m] + o[p..])
  {
    var r := o[..p] + [m] + o[p..];
    forall i, j | 0 <= i < j < |r|
      ensures r[i].0 != r[j].0
    {
      var i' := if i < p then i else i - 1;
      var j' := if j <= p then j else j - 1;
      assert i != p ==> r[i] == o[i'];
      assert j != p ==> r[j] == o[j'];
    }
  }

  /** Inserting an array index after the leading indices no greater than
      it, and before the first key that is not one of those, keeps the
      property order. */
  lemma InsertOrdered(o: Settings, p: nat, m: (string, bool))
    requires PropertyOrder(o) && p <= |o| && IsIndex(m.0)
    requires forall i :: 0 <= i < p ==> IndexAtMost(o[i].0, m.0)
    requires p < |o| ==> !IndexAtMost(o[p].0, m.0)
    ensures PropertyOrder(o[..p] + [m] + o[p..])
  {
    var r := o[..p] + [m] + o[p..];
    forall i, j | 0 <= i < j < |r| && IsIndex(r[j].0)
      ensures IndexAtMost(r[i].0, r[j].0)
    {
      if j <= p {
        assert r[i] == o[i];
        if j < p {
          assert r[j] == o[j];
        }
      } else {
        var q := j - 1;
        assert r[j] == o[q];
        assert IndexAtMost(o[p].0, o[q].0) || p == q;
        if i < p {
          assert r[i] == o[i] && IndexAtMost(o[i].0, m.0);
        } else if p < i {
          assert r[i] == o[i - 1] && IndexAtMost(o[i - 1].0, o[q].0);
        }
      }
    }
  }

  /** Putting keeps the keys unique and in property order. */
  lemma PutUnique(o: Settings, k: string, v: bool)
    requires IsObject(o)
    ensures IsObject(Put(o, k, v))
  {
    var r := Put(o, k, v);
    PutPlaces(o, k, v);
    if !HasKey(o, k) && IsIndex(k) {
      InsertIsObject(o, k, v);
    } else if !HasKey(o, k) {
      assert r == o + [(k, v)];
    } else {
      assert forall i :: 0 <= i < |o| ==> r[i].0 == o[i].0;
    }
  }

  /** An object built by assigning the pairs in order (JSON.parse with
      repeated keys keeps the first place and the last value). */
  function Build(pairs: seq<(string, bool)>): (o: Settings)
    ensures IsObject(o)
  {
    if pairs == [] then []
    else
      var front := Build(pairs[..|pairs| - 1]);
      PutUnique(front, pairs[|pairs| - 1].0, pairs[|pairs| - 1].1);
      Put(front, pairs[|pairs| - 1].0, pairs[|pairs| - 1].1)
  }

  /** Assigning the members of an object, in its order, rebuilds it as it
      is. */
  lemma {:induction false} BuildUnique(pairs: seq<(string, bool)>)
    requires IsObject(pairs)
    ensures Build(pairs) == pairs
  {
    if pairs != [] {
      var front, last := pairs[..|pairs| - 1], pairs[|pairs| - 1];
      assert pairs == front + [last];
      assert IsObject(front) by {
        assert forall i :: 0 <= i < |front| ==> front[i] == pairs[i];
      }
      BuildUnique(front);
      PutLast(front, last);
    }
  }

  /** The last member of an object, assigned to the members before it,
      goes back last. */
  lemma PutLast(front: Settings, last: (string, bool))
    requires IsObject(front + [last])
    ensures Put(front, last.0, last.1) == front + [last]
  {
    var o := front + [last];
    PutPlaces(front, last.0, last.1);
    assert forall i :: 0 <= i < |front| ==> o[i] == front[i];
    assert o[|front|] == last;
    assert !HasKey(front, last.0);
    if IsIndex(last.0) {
      assert forall i :: 0 <= i < |front| ==> IndexAtMost(front[i].0, last.0);
      IndexSlotAll(front, last.0);
      assert front[..|front|] == front && front[|front|..] == [];
    }
  }

  /** When every key is an array index no greater than `k`, the slot for
      `k` is the end. */
  lemma {:induction false} IndexSlotAll(o: Settings, k: string)
    requires IsIndex(k)
    requires forall i :: 0 <= i < |o| ==> IndexAtMost(o[i].0, k)
    ensures IndexSlot(o, k) == |o|
  {
    if o != [] {
      assert forall i :: 0 <= i < |o[1..]| ==> o[1..][i] == o[i + 1];
      IndexSlotAll(o[1..], k);
    }
  }

  /** An array-index key goes ahead of keys added before it: assigning
      "b" and then "12" lists "12" first, as JavaScript does. */
  lemma IndexKeysFirst()
    ensures Put([("b", true)], "12", false) == [("12", false), ("b", true)]
  {
    assert IsIndex("12") && !IsIndex("b");
    assert !HasKey([("b", true)], "12");
    assert IndexSlot([("b", true)], "12") == 0;
    PutPlaces([("b", true)], "12", false);
  }

  function BoolText(b: bool): string
  {
    if b then "true" else "false"
  }

  function MemberText(m: (string, bool)): string
  {
    Quote(m.0) + ":" + BoolText(m.1)
  }

  /** The members of an object, comma separated, with the closing brace. */
  function MembersText(o: Settings): string
  {
    if o == [] then "}"
    else if |o| == 1 then MemberText(o[0]) + "}"
    else MemberText(o[0]) + "," + MembersText(o[1..])
  }

  /** `JSON.stringify(o)` for an object of booleans. */
  function StringifySettings(o: Settings): string
  {
    "{" + MembersText(o)
  }

  /** `true` or `false` at the head of the text, and what follows. */
  function ReadBool(t: string): (r: Option<(bool, string)>)
    ensures r.Some? ==> |r.value.1| < |t|
  {
    if |t| >= 4 && t[..4] == "true" then Some((true, t[4..]))
    else if |t| >= 5 && t[..5] == "false" then Some((false, t[5..]))
    else None
  }

  /** Members up to and including the closing brace. */
  function ReadMembers(t: string): (r: Option<seq<(string, bool)>>)
    decreases |t|
  {
    if |t| == 0 || t[0] != '"' then None
    else match ReadString(t[1..])
      case None => None
      case Some(p) =>
        var r1 := p.1;
        if |r1| == 0 || r1[0] != ':' then None
        else match ReadBool(r1[1..])
          case None => None
          case Some(q) =>
            var r2 := q.1;
            if r2 == "}" then Some([(p.0, q.0)])
            else if |r2| > 0 && r2[0] == ',' then
              match ReadMembers(r2[1..])
              case None => None
              case Some(more) => Some([(p.0, q.0)] + more)
            else None
  }

  /** `JSON.parse(text)` for an object of booleans: the object, or None
      where JSON.parse throws. */
  function ParseSettings(text: string): (r: Option<Settings>)
    ensures r.Some? ==> IsObject(r.value)
  {
    if text == "{}" then Some([])
    else if |text| > 0 && text[0] == '{' then
      match ReadMembers(text[1..])
      case None => None
      case Some(pairs) => Some(Build(pairs))
    else None
  }

  lemma ReadBoolText(b: bool, tail: string)
    ensures ReadBool(BoolText(b) + tail) == Some((b, tail))
  {
    var t := BoolText(b) + tail;
    if b {
      assert t[..4] == "true" && t[4..] == tail;
    } else {
      assert t[..4] != "true" by { assert t[1] == 'a'; }
      assert t[..5] == "false" && t[5..] == tail;
    }
  }

  /** A written member reads back as its key, then the colon and value. */
  lemma ReadMemberKey(m: (string, bool), tail: string)
    ensures (MemberText(m) + tail)[0] == '"'
    ensures ReadString((MemberText(m) + tail)[1..]) == Some((m.0, ":" + BoolText(m.1) + tail))
  {
    var after := ":" + BoolText(m.1) + tail;
    assert MemberText(m) + tail == "\"" + (Escape(m.0) + "\"" + after);
    assert (MemberText(m) + tail)[1..] == Escape(m.0) + "\"" + after;
    ReadEscaped(m.0, after);
  }

  /** A written member followed by `tail` reads as that member and leaves
      `tail` to the loop. */
  lemma ReadMemberHead(m: (string, bool), tail: string)
    ensures |MemberText(m) + tail| > 0 && (MemberText(m) + tail)[0] == '"'
    ensures ReadString((MemberText(m) + tail)[1..]) == Some((m.0, ":" + BoolText(m.1) + tail))
    ensures ReadBool((":" + BoolText(m.1) + tail)[1..]) == Some((m.1, tail))
  {
    ReadMemberKey(m, tail);
    assert (":" + BoolText(m.1) + tail)[1..] == BoolText(m.1) + tail;
    ReadBoolText(m.1, tail);
  }

  lemma ReadMembersLast(m: (string, bool))
    ensures ReadMembers(MemberText(m) + "}") == Some([m])
  {
    ReadMemberHead(m, "}");
  }

  lemma ReadMembersCons(m: (string, bool), rest: string, more: Settings)
    requires ReadMembers(rest) == Some(more)
    ensures ReadMembers(MemberText(m) + ("," + rest)) == Some([m] + more)
  {
    var tail := "," + rest;
    ReadMemberHead(m, tail);
    assert tail[1..] == rest;
  }

  lemma {:induction false} ReadMembersText(o: Settings)
    requires o != []
    ensures ReadMembers(MembersText(o)) == Some(o)
    decreases |o|, 1
  {
    if |o| == 1 {
      ReadMembersLast(o[0]);
      assert o == [o[0]];
    } else {
      ReadMembersTextCons(o);
    }
  }

  lemma {:induction false} ReadMembersTextCons(o: Settings)
    requires |o| > 1
    ensures ReadMembers(MembersText(o)) == Some(o)
    decreases |o|, 0
  {
    var rest := o[1..];
    ReadMembersText(rest);
    ReadMembersCons(o[0], MembersText(rest), rest);
    MembersTextCons(o);
    assert [o[0]] + rest == o;
  }

  /** The text of two or more members: the first, a comma, the rest. */
  lemma MembersTextCons(o: Settings)
    requires |o| > 1
    ensures MembersText(o) == MemberText(o[0]) + ("," + MembersText(o[1..]))
  {
  }

  /** Reading back what was written gives the same object. */
  lemma SettingsRoundTrip(o: Settings)
    requires IsObject(o)
    ensures ParseSettings(StringifySettings(o)) == Some(o)
  {
    if o != [] {
      var text := StringifySettings(o);
      ReadMembersText(o);
      assert text[1..] == MembersText(o);
      assert Quote(o[0].0)[0] == '"';
      assert text != "{}";
      BuildUnique(o);
    }
  }

  // ------------------------------------------------------------ arrays of ids

  /** The elements of an array of strings, comma separated, with the
      closing bracket. */
  function ItemsText(ids: seq<string>): string
  {
    if ids == [] then "]"
    else if |ids| == 1 then Quote(ids[0]) + "]"
    else Quote(ids[0]) + "," + ItemsText(ids[1..])
  }

  /** `JSON.stringify(ids)`. */
  function StringifyIds(ids: seq<string>): string
  {
    "[" + ItemsText(ids)
  }

  function ReadItems(t: string): (r: Option<seq<string>>)
    decreases |t|
  {
    if |t| == 0 || t[0] != '"' then None
    else match ReadString(t[1..])
      case None => None
      case Some(p) =>
        var r1 := p.1;
        if r1 == "]" then Some([p.0])
        else if |r1| > 0 && r1[0] == ',' then
          match ReadItems(r1[1..])
          case None => None
          case Some(more) => Some([p.0] + more)
        else None
  }

  /** `JSON.parse(text)` for an array of strings, None where it throws. */
  function ParseIds(text: string): (r: Option<seq<string>>)
  {
    if text == "[]" then Some([])
    else if |text| > 0 && text[0] == '[' then ReadItems(text[1..])
    else None
  }

  /** A written id followed by `tail` reads as that id and leaves `tail`
      to the loop. */
  lemma ReadItemHead(x: string, tail: string)
    ensures |Quote(x) + tail| > 0 && (Quote(x) + tail)[0] == '"'
    ensures ReadString((Quote(x) + tail)[1..]) == Some((x, tail))
  {
    var t := Quote(x) + tail;
    assert t == "\"" + (Escape(x) + "\"" + tail);
    ReadEscaped(x, tail);
    assert t[1..] == Escape(x) + "\"" + tail;
  }

  lemma ReadItemsLast(x: string)
    ensures ReadItems(Quote(x) + "]") == Some([x])
  {
    ReadItemHead(x, "]");
  }

  lemma ReadItemsCons(x: string, rest: string, more: seq<string>)
    requires ReadItems(rest) == Some(more)
    ensures ReadItems(Quote(x) + ("," + rest)) == Some([x] + more)
  {
    var tail := "," + rest;
    ReadItemHead(x, tail);
    assert tail[1..] == rest;
  }

  lemma {:induction false} ReadItemsText(ids: seq<string>)
    requires ids != []
    ensures ReadItems(ItemsText(ids)) == Some(ids)
  {
    if |ids| == 1 {
      ReadItemsLast(ids[0]);
      assert ids == [ids[0]];
    } else {
      ReadItemsText(ids[1..]);
      ReadItemsCons(ids[0], ItemsText(ids[1..]), ids[1..]);
      assert ItemsText(ids) == Quote(ids[0]) + ("," + ItemsText(ids[1..]));
      assert [ids[0]] + ids[1..] == ids;
    }
  }

  /** Reading back a written array gives the same ids. */
  lemma IdsRoundTrip(ids: seq<string>)
    ensures ParseIds(StringifyIds(ids)) == Some(ids)
  {
    if ids != [] {
      var text := StringifyIds(ids);
      ReadItemsText(ids);
      assert text[1..] == ItemsText(ids);
      assert Quote(ids[0])[0] == '"';
      assert text != "[]";
    }
  }
}
