// Values and string helpers shared by every part of the dashboard model.
// Strings are sequences of characters; case mapping is the ASCII subset of
// Python's and JavaScript's rules, whitespace is each language's own set.
module Common {

  datatype Option<T> = None | Some(value: T)

  /** Result of an operation that either completes or raises (Python) /
      throws (JavaScript); `kind` names the exception class. */
  datatype Outcome<T> = Done(value: T) | Raised(kind: string)

  /** A calendar date as `datetime.date` holds it. */
  datatype Date = Date(year: int, month: int, day: int)

  /** The head and tail of a concatenation with a non-empty left part. */
  lemma TailOfConcat<T>(a: seq<T>, b: seq<T>)
    requires a != []
    ensures (a + b)[0] == a[0] && (a + b)[1..] == a[1..] + b
  {
  }

  // ---------------------------------------------------------------- case

  predicate IsUpper(c: char) { 'A' <= c <= 'Z' }
  predicate IsLower(c: char) { 'a' <= c <= 'z' }
  /** A cased character in the sense of Python's `str.title`. */
  predicate IsLetter(c: char) { IsUpper(c) || IsLower(c) }

  function LowerChar(c: char): (r: char)
    ensures IsUpper(c) ==> IsLower(r)
    ensures !IsUpper(c) ==> r == c
  {
    if IsUpper(c) then (c as int + 32) as char else c
  }

  function UpperChar(c: char): (r: char)
    ensures IsLower(c) ==> IsUpper(r)
    ensures !IsLower(c) ==> r == c
  {
    if IsLower(c) then (c as int - 32) as char else c
  }

  /** `s.lower()` / `s.toLowerCase()`. */
  function Lower(s: string): (r: string)
    ensures |r| == |s|
    ensures forall i :: 0 <= i < |s| ==> r[i] == LowerChar(s[i])
  {
    seq(|s|, i requires 0 <= i < |s| => LowerChar(s[i]))
  }

  /** `s.upper()` / `s.toUpperCase()`. */
  function Upper(s: string): (r: string)
    ensures |r| == |s|
    ensures forall i :: 0 <= i < |s| ==> r[i] == UpperChar(s[i])
  {
    seq(|s|, i requires 0 <= i < |s| => UpperChar(s[i]))
  }

  lemma LowerIdempotent(s: string)
    ensures Lower(Lower(s)) == Lower(s)
  {
  }

  // ---------------------------------------------------------------- digits

  /** An ASCII decimal digit (the model's reading of a regex `\d`). */
  predicate IsDigit(c: char) { '0' <= c <= '9' }

  predicate AllDigits(s: string)
  {
    forall i :: 0 <= i < |s| ==> IsDigit(s[i])
  }

  function DigitValue(c: char): (d: int)
    requires IsDigit(c)
    ensures 0 <= d <= 9
  {
    c as int - '0' as int
  }

  function DigitChar(d: int): (c: char)
    requires 0 <= d <= 9
    ensures IsDigit(c) && DigitValue(c) == d
  {
    (d + '0' as int) as char
  }

  /** The number a run of decimal digits denotes (most significant first). */
  function DigitsValue(s: string): (n: nat)
    requires AllDigits(s)
    decreases |s|
  {
    if |s| == 0 then 0 else 10 * DigitsValue(s[..|s| - 1]) + DigitValue(s[|s| - 1])
  }

  function Pow10(k: nat): (p: nat)
    ensures p >= 1
  {
    if k == 0 then 1 else 10 * Pow10(k - 1)
  }

  /** `n` written with exactly `width` digits, zero-padded on the left. */
  function PadDigits(n: nat, width: nat): (s: string)
    ensures |s| == width && AllDigits(s)
    decreases width
  {
    if width == 0 then [] else PadDigits(n / 10, width - 1) + [DigitChar(n % 10)]
  }

  lemma {:induction false} DigitsBound(s: string)
    requires AllDigits(s)
    ensures DigitsValue(s) < Pow10(|s|)
    decreases |s|
  {
    if |s| > 0 {
      DigitsBound(s[..|s| - 1]);
    }
  }

  lemma ShortDigits(t: string)
    requires AllDigits(t)
    ensures |t| == 1 ==> DigitsValue(t) == DigitValue(t[0])
    ensures |t| == 2 ==> DigitsValue(t) == 10 * DigitValue(t[0]) + DigitValue(t[1])
  {
    if |t| == 2 {
      assert t[..1][..0] == [];
    }
  }

  /** Padding a number that fits and reading it back gives the number. */
  lemma {:induction false} PadDigitsValue(n: nat, width: nat)
    requires n < Pow10(width)
    ensures DigitsValue(PadDigits(n, width)) == n
    decreases width
  {
    if width > 0 {
      var s := PadDigits(n, width);
      assert s[..|s| - 1] == PadDigits(n / 10, width - 1);
      PadDigitsValue(n / 10, width - 1);
    }
  }

  /** Reading digits and padding the value back to the same width gives
      the digits again, leading zeros included. */
  lemma {:induction false} DigitsCanonical(s: string)
    requires AllDigits(s)
    ensures PadDigits(DigitsValue(s), |s|) == s
    decreases |s|
  {
    if |s| > 0 {
      var init := s[..|s| - 1];
      var v := DigitsValue(init);
      var d := DigitValue(s[|s| - 1]);
      assert (10 * v + d) / 10 == v && (10 * v + d) % 10 == d;
      DigitsCanonical(init);
      assert s == init + [s[|s| - 1]];
    }
  }

  // ---------------------------------------------------------------- search

  /** `t` occurs in `s` starting at index `i`. */
  predicate OccursAt(s: string, t: string, i: int)
  {
    0 <= i && i + |t| <= |s| && s[i..i + |t|] == t
  }

  /** `t in s` (substring test) / `s.includes(t)`. */
  predicate Contains(s: string, t: string)
  {
    exists i | 0 <= i <= |s| :: OccursAt(s, t, i)
  }

  /** `s.startswith(p)` / `s.startsWith(p)`. */
  predicate StartsWith(s: string, p: string)
  {
    |p| <= |s| && s[..|p|] == p
  }

  /** Index of the first occurrence of `sep` in `s` (`s.find(sep)`). */
  function Find(s: string, sep: string): (r: Option<nat>)
    requires |sep| > 0
    ensures r.Some? ==> OccursAt(s, sep, r.value)
    ensures r.Some? ==> forall j :: 0 <= j < r.value ==> !OccursAt(s, sep, j)
    ensures r.None? ==> forall j :: !OccursAt(s, sep, j)
    decreases |s|
  {
    if |s| < |sep| then None
    else if s[..|sep|] == sep then Some(0)
    else match Find(s[1..], sep)
      case None =>
        assert forall j :: OccursAt(s, sep, j) && j >= 1 ==> OccursAt(s[1..], sep, j - 1);
        None
      case Some(k) =>
        assert forall j :: OccursAt(s, sep, j) && j >= 1 ==> OccursAt(s[1..], sep, j - 1);
        Some(k + 1)
  }

  /** `r` ends `s` right after an occurrence of `sep`. */
  predicate FollowsSeparator(s: string, sep: string, r: string)
  {
    |r| + |sep| <= |s| && s[|s| - |r|..] == r && s[|s| - |r| - |sep|..|s| - |r|] == sep
  }

  /** `s.split(sep)[-1]`: the text after the last separator that a
      left-to-right split finds: all of `s` when there is none, otherwise
      an end of `s` that follows an occurrence of the separator and holds
      none itself. */
  function LastField(s: string, sep: string): (r: string)
    requires |sep| > 0
    ensures |r| <= |s|
    ensures Find(s, sep).None? ==> r == s
    ensures Find(s, sep).Some? ==> FollowsSeparator(s, sep, r)
    ensures Find(r, sep).None?
    decreases |s|
  {
    match Find(s, sep)
    case None => s
    case Some(k) =>
      var r := LastField(s[k + |sep|..], sep);
      FollowsInSuffix(s, sep, k + |sep|, r);
      r
  }

  /** A field that follows a separator in a suffix of `s`, or is the whole
      suffix after one, follows it in `s`. */
  lemma FollowsInSuffix(s: string, sep: string, j: nat, r: string)
    requires |sep| <= j <= |s| && s[j - |sep|..j] == sep
    requires r == s[j..] || FollowsSeparator(s[j..], sep, r)
    ensures FollowsSeparator(s, sep, r)
  {
    var t := s[j..];
    var b := |s| - |r|;
    if r == t {
      assert b == j;
    } else {
      var a := |t| - |r|;
      assert a + j == b && a >= |sep|;
      assert t[a..] == s[b..];
      assert t[a - |sep|..a] == s[b - |sep|..b];
    }
  }

  /** `s.replace(a, b)` for single characters `a` and `b`. */
  function ReplaceChar(s: string, a: char, b: char): (r: string)
    ensures |r| == |s|
    ensures forall i :: 0 <= i < |s| ==> r[i] == (if s[i] == a then b else s[i])
  {
    seq(|s|, i requires 0 <= i < |s| => if s[i] == a then b else s[i])
  }

  /** `s.replace(a, '')` for a single character `a`: every `a` goes; a
      text without `a` is kept as it is, and `RemoveCharOne` with
      `RemoveCharConcat` show that the other characters stay in order. */
  function RemoveChar(s: string, a: char): (r: string)
    ensures a !in r
    ensures |r| <= |s|
    ensures a !in s ==> r == s
  {
    if |s| == 0 then ""
    else if s[0] == a then RemoveChar(s[1..], a)
    else [s[0]] + RemoveChar(s[1..], a)
  }

  /** On one character, `replace` drops it when it is `a` and keeps it otherwise. */
  lemma RemoveCharOne(c: char, a: char)
    ensures RemoveChar([c], a) == if c == a then [] else [c]
  {
    assert [c][1..] == [];
  }

  /** Removing from a concatenation removes from each part and keeps the
      parts in order; with `RemoveCharOne` this fixes the result. */
  lemma {:induction false} RemoveCharConcat(a: string, b: string, c: char)
    ensures RemoveChar(a + b, c) == RemoveChar(a, c) + RemoveChar(b, c)
    decreases |a|
  {
    if a != [] {
      assert (a + b)[1..] == a[1..] + b;
      RemoveCharConcat(a[1..], b, c);
    } else {
      assert a + b == b;
    }
  }

  /** Python's `str.isspace()`: the characters `str.strip()` and `int()`
      remove (tab to carriage return, the four information separators,
      space, next line, no-break space and the Unicode space separators). */
  predicate IsSpace(c: char)
  {
    '\t' <= c <= '\r' || '\U{001C}' <= c <= ' ' || c == '\U{0085}' || c == '\U{00A0}' || c == '\U{1680}'
    || '\U{2000}' <= c <= '\U{200A}' || c == '\U{2028}' || c == '\U{2029}' || c == '\U{202F}' || c == '\U{205F}'
    || c == '\U{3000}'
  }

  /** The characters JavaScript's `String.prototype.trim()` removes: the
      white space and line terminators of ECMAScript, which add the byte
      order mark and leave out the information separators and next line. */
  predicate IsJsSpace(c: char)
  {
    '\t' <= c <= '\r' || c == ' ' || c == '\U{00A0}' || c == '\U{1680}'
    || '\U{2000}' <= c <= '\U{200A}' || c == '\U{2028}' || c == '\U{2029}' || c == '\U{202F}' || c == '\U{205F}'
    || c == '\U{3000}' || c == '\U{FEFF}'
  }

  /** Whose notion of blank a strip uses. */
  datatype Blanks = PythonBlanks | JsBlanks

  predicate IsBlank(b: Blanks, c: char)
  {
    if b == PythonBlanks then IsSpace(c) else IsJsSpace(c)
  }

  /** The length of the run of blanks that starts `s`. */
  function LeadEnd(s: string, b: Blanks): (i: nat)
    ensures i <= |s|
    decreases |s|
  {
    if |s| == 0 || !IsBlank(b, s[0]) then 0 else 1 + LeadEnd(s[1..], b)
  }

  /** Where the run of blanks that ends `s` starts, looking no further left
      than `lo`. */
  function TrailStart(s: string, lo: nat, b: Blanks): (j: nat)
    requires lo <= |s|
    ensures lo <= j <= |s|
    decreases |s|
  {
    if |s| == lo || !IsBlank(b, s[|s| - 1]) then |s| else TrailStart(s[..|s| - 1], lo, b)
  }

  /** The leading run is all blank and stops at a non-blank or the end. */
  lemma {:induction false} LeadEndSpec(s: string, b: Blanks)
    ensures forall k :: 0 <= k < LeadEnd(s, b) ==> IsBlank(b, s[k])
    ensures LeadEnd(s, b) < |s| ==> !IsBlank(b, s[LeadEnd(s, b)])
    decreases |s|
  {
    if |s| > 0 && IsBlank(b, s[0]) {
      LeadEndSpec(s[1..], b);
    }
  }

  /** The trailing run is all blank and, when it stops before `lo`, stops
      after a non-blank. */
  lemma {:induction false} TrailStartSpec(s: string, lo: nat, b: Blanks)
    requires lo <= |s|
    ensures forall k :: TrailStart(s, lo, b) <= k < |s| ==> IsBlank(b, s[k])
    ensures TrailStart(s, lo, b) > lo ==> !IsBlank(b, s[TrailStart(s, lo, b) - 1])
    decreases |s|
  {
    if |s| > lo && IsBlank(b, s[|s| - 1]) {
      TrailStartSpec(s[..|s| - 1], lo, b);
    }
  }

  /** `r` is the slice of `s` that starts at `i`, and everything before it
      and after it is blank. */
  predicate BlankAround(s: string, r: string, i: int, b: Blanks)
  {
    0 <= i && i + |r| <= |s| && s[i..i + |r|] == r
    && (forall k :: 0 <= k < i ==> IsBlank(b, s[k]))
    && (forall k :: i + |r| <= k < |s| ==> IsBlank(b, s[k]))
  }

  /** Stripping: the blanks at both ends of `s` are cut. */
  function StripBy(s: string, b: Blanks): (r: string)
    ensures |r| <= |s|
    ensures |r| > 0 ==> !IsBlank(b, r[0]) && !IsBlank(b, r[|r| - 1])
  {
    LeadEndSpec(s, b);
    TrailStartSpec(s, LeadEnd(s, b), b);
    s[LeadEnd(s, b)..TrailStart(s, LeadEnd(s, b), b)]
  }

  /** The stripped text is the slice of `s` left when the blanks at both
      ends are cut: everything before it and after it is blank, and neither
      of its ends is. */
  lemma StripBySlice(s: string, b: Blanks)
    ensures exists i :: BlankAround(s, StripBy(s, b), i, b)
  {
    var i := LeadEnd(s, b);
    var j := TrailStart(s, i, b);
    LeadEndSpec(s, b);
    TrailStartSpec(s, i, b);
    assert StripBy(s, b) == s[i..j];
    assert BlankAround(s, s[i..j], i, b);
  }

  /** Python's `s.strip()`. */
  function Strip(s: string): string
  {
    StripBy(s, PythonBlanks)
  }

  /** JavaScript's `s.trim()`. */
  function Trim(s: string): string
  {
    StripBy(s, JsBlanks)
  }

  // ---------------------------------------------------------------- title

  /** ASCII `str.title()`: a letter is upper-cased when the character before
      it is not a letter, lower-cased otherwise; other characters stay. */
  function Title(s: string): (r: string)
  {
    seq(|s|, i requires 0 <= i < |s| =>
      if !IsLetter(s[i]) then s[i]
      else if i == 0 || !IsLetter(s[i - 1]) then UpperChar(s[i])
      else LowerChar(s[i]))
  }

  /** Title-casing keeps the length and which positions hold letters, starts
      every word with a capital and lower-cases the rest of the word. */
  lemma TitleShape(s: string)
    ensures |Title(s)| == |s|
    ensures forall i :: 0 <= i < |s| ==> (IsLetter(Title(s)[i]) <==> IsLetter(s[i]))
    ensures forall i :: 0 <= i < |s| && IsLetter(s[i]) && (i == 0 || !IsLetter(s[i - 1])) ==> IsUpper(Title(s)[i])
    ensures forall i :: 0 < i < |s| && IsLetter(s[i]) && IsLetter(s[i - 1]) ==> IsLower(Title(s)[i])
  {
  }

  /** A second `title()` changes nothing. */
  lemma TitleIdempotent(s: string)
    ensures Title(Title(s)) == Title(s)
  {
    TitleShape(s);
    var t := Title(s);
    forall i | 0 <= i < |s|
      ensures Title(t)[i] == t[i]
    {
      if IsLetter(s[i]) {
        assert IsLetter(t[i]);
        if i > 0 {
          assert IsLetter(t[i - 1]) <==> IsLetter(s[i - 1]);
        }
      }
    }
  }

  // ---------------------------------------------------------------- ordering

  /** Python's string order: code point by code point, a proper prefix
      first. */
  predicate StrLe(a: string, b: string)
    decreases |a|
  {
    |a| == 0 || (|b| > 0 && (a[0] < b[0] || (a[0] == b[0] && StrLe(a[1..], b[1..]))))
  }

  lemma {:induction false} StrLeTotal(a: string, b: string)
    ensures StrLe(a, b) || StrLe(b, a)
    decreases |a|
  {
    if |a| > 0 && |b| > 0 && a[0] == b[0] {
      StrLeTotal(a[1..], b[1..]);
    }
  }

  lemma {:induction false} StrLeTrans(a: string, b: string, c: string)
    requires StrLe(a, b) && StrLe(b, c)
    ensures StrLe(a, c)
    decreases |a|
  {
    if |a| > 0 && a[0] == b[0] && b[0] == c[0] {
      StrLeTrans(a[1..], b[1..], c[1..]);
    }
  }

  /** Two strings each at most the other are the same string. */
  lemma {:induction false} StrLeAntisymmetric(a: string, b: string)
    requires StrLe(a, b) && StrLe(b, a)
    ensures a == b
    decreases |a|
  {
    if |a| > 0 {
      StrLeAntisymmetric(a[1..], b[1..]);
      assert a == [a[0]] + a[1..] && b == [b[0]] + b[1..];
    }
  }

  /** Each string is at most its successor. */
  predicate SortedStrings(s: seq<string>)
  {
    forall i :: 0 < i < |s| ==> StrLe(s[i - 1], s[i])
  }

  /** Insert `x` before the first element it does not follow. */
  function InsertString(x: string, s: seq<string>): (r: seq<string>)
    requires SortedStrings(s)
    ensures SortedStrings(r)
    ensures multiset(r) == multiset(s) + multiset{x}
    ensures |r| == |s| + 1
    ensures |r| > 0 && (r[0] == x || (|s| > 0 && r[0] == s[0]))
    decreases |s|
  {
    if |s| == 0 then [x]
    else if StrLe(x, s[0]) then [x] + s
    else
      StrLeTotal(x, s[0]);
      var rest := InsertString(x, s[1..]);
      assert s == [s[0]] + s[1..];
      [s[0]] + rest
  }

  /** `sorted(names)`. */
  function SortStrings(s: seq<string>): (r: seq<string>)
    ensures SortedStrings(r)
    ensures multiset(r) == multiset(s)
    ensures |r| == |s|
    decreases |s|
  {
    if |s| == 0 then []
    else
      assert s == [s[0]] + s[1..];
      InsertString(s[0], SortStrings(s[1..]))
  }

  /** In a sorted list, every element is at most every later one. */
  lemma {:induction false} SortedPairs(s: seq<string>, i: int, j: int)
    requires SortedStrings(s) && 0 <= i <= j < |s|
    ensures StrLe(s[i], s[j])
    decreases j - i
  {
    if i == j {
      StrLeRefl(s[i]);
    } else {
      SortedPairs(s, i, j - 1);
      StrLeTrans(s[i], s[j - 1], s[j]);
    }
  }

  lemma {:induction false} StrLeRefl(a: string)
    ensures StrLe(a, a)
    decreases |a|
  {
    if |a| > 0 {
      StrLeRefl(a[1..]);
    }
  }

  // ---------------------------------------------------------------- supplier

  /** The supplier filter rule written as
      `fornecedora and fornecedora.lower() != 'consolidado'`:
      a missing (None) or empty name, and "consolidado" in any case,
      mean "all suppliers". */
  predicate SupplierFilterApplies(f: Option<string>)
  {
    f.Some? && |f.value| > 0 && Lower(f.value) != "consolidado"
  }

  /** The filter applies exactly to the non-empty names whose lower-case form
      is not "consolidado"; in particular every spelling of "Consolidado" and
      the empty name are unfiltered. */
  lemma SupplierFilterCases(name: string)
    ensures SupplierFilterApplies(Some(name)) <==> (name != "" && Lower(name) != "consolidado")
    ensures Lower(name) == "consolidado" ==> !SupplierFilterApplies(Some(name))
    ensures !SupplierFilterApplies(None)
    ensures SupplierFilterApplies(Some(name)) ==> SupplierFilterApplies(Some(Lower(name))) && SupplierFilterApplies(Some(Upper(name)))
  {
    if SupplierFilterApplies(Some(name)) {
      LowerIdempotent(name);
      LowerOfUpper(name);
    }
  }

  lemma LowerOfUpper(s: string)
    ensures Lower(Upper(s)) == Lower(s)
  {
  }
}
