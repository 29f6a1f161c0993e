// The report page script (static/js/reports_loader.js): it reads the
// report, the supplier and the page from the address, builds the table and
// the pagination bar from the API's answer, points the export link at the
// same report, and filters rows by their whole text.
module ReportsLoader {
  import opened Common
  import ApiRoutes
  import TableSearch

  // ---------------------------------------------------------- query strings

  /** A `URLSearchParams`: its name/value pairs in order. */
  type Query = seq<(string, string)>

  /** `params.get(k)`: the value of the first pair named `k`. */
  function Lookup(q: Query, k: string): (r: Option<string>)
    ensures r.None? <==> forall i :: 0 <= i < |q| ==> q[i].0 != k
    ensures r.Some? ==> exists i :: 0 <= i < |q| && q[i] == (k, r.value)
    decreases |q|
  {
    if q == [] then None
    else if q[0].0 == k then Some(q[0].1)
    else
      var r := Lookup(q[1..], k);
      assert r.Some? ==> exists i :: 0 <= i < |q[1..]| && q[1..][i] == (k, r.value);
      r
  }

  /** The number of pairs named `k`. */
  function Count(q: Query, k: string): nat
    decreases |q|
  {
    if q == [] then 0 else (if q[0].0 == k then 1 else 0) + Count(q[1..], k)
  }

  /** The rest of `params.set(k, v)`: pairs named `k` become (k, v) at the
      first one and vanish after it (`placed` says the first is behind);
      with none left to replace the pair is appended. */
  function SetFrom(q: Query, k: string, v: string, placed: bool): (r: Query)
    ensures placed ==> Lookup(r, k).None? && Count(r, k) == 0
    ensures !placed ==> Lookup(r, k) == Some(v) && Count(r, k) == 1
    ensures forall k' :: k' != k ==> Lookup(r, k') == Lookup(q, k') && Count(r, k') == Count(q, k')
    decreases |q|
  {
    if q == [] then (if placed then [] else [(k, v)])
    else if q[0].0 == k then
      (if placed then SetFrom(q[1..], k, v, true) else [(k, v)] + SetFrom(q[1..], k, v, true))
    else [q[0]] + SetFrom(q[1..], k, v, placed)
  }

  /** `params.set(k, v)`: afterwards `k` has exactly the one value `v`, and
      every other name keeps its values. */
  function SetParam(q: Query, k: string, v: string): (r: Query)
    ensures Lookup(r, k) == Some(v) && Count(r, k) == 1
    ensures forall k' :: k' != k ==> Lookup(r, k') == Lookup(q, k') && Count(r, k') == Count(q, k')
  {
    SetFrom(q, k, v, false)
  }

  lemma {:induction false} SetFromTwice(q: Query, k: string, a: string, b: string, placed: bool)
    ensures SetFrom(SetFrom(q, k, a, placed), k, b, placed) == SetFrom(q, k, b, placed)
    decreases |q|
  {
    if q == [] {
    } else if q[0].0 == k {
      SetFromTwice(q[1..], k, a, b, true);
      if !placed {
        var once := SetFrom(q, k, a, false);
        assert once[0] == (k, a) && once[1..] == SetFrom(q[1..], k, a, true);
      }
    } else {
      SetFromTwice(q[1..], k, a, b, placed);
      var once := SetFrom(q, k, a, placed);
      assert once[0] == q[0] && once[1..] == SetFrom(q[1..], k, a, placed);
    }
  }

  /** A later `set` of the same name overrides an earlier one completely,
      which is why reusing one `URLSearchParams` across the links is
      harmless. */
  lemma SetParamTwice(q: Query, k: string, a: string, b: string)
    ensures SetParam(SetParam(q, k, a), k, b) == SetParam(q, k, b)
  {
    SetFromTwice(q, k, a, b, false);
  }

  /** `params.get(k) || d`: a missing or empty value gives the default. */
  function ParamOr(q: Query, k: string, d: string): (s: string)
    ensures Lookup(q, k).Some? && Lookup(q, k).value != "" ==> s == Lookup(q, k).value
    ensures Lookup(q, k).None? || Lookup(q, k) == Some("") ==> s == d
  {
    match Lookup(q, k)
    case Some(t) => if t != "" then t else d
    case None => d
  }

  // ------------------------------------------------------ report arguments

  /** The three request values read from the page address. */
  datatype ReportRequest = ReportRequest(reportType: string, supplier: string, page: string)

  function RequestOf(address: Query): (r: ReportRequest)
    ensures r.reportType != "" && r.supplier != "" && r.page != ""
    ensures Lookup(address, "report_type").None? ==> r.reportType == "base_clientes"
    ensures Lookup(address, "fornecedora").None? ==> r.supplier == "Consolidado"
    ensures Lookup(address, "page").None? ==> r.page == "1"
  {
    ReportRequest(ParamOr(address, "report_type", "base_clientes"),
                  ParamOr(address, "fornecedora", "Consolidado"),
                  ParamOr(address, "page", "1"))
  }

  /** The two reports that have no supplier filter. */
  predicate SupplierBlind(reportType: string)
  {
    reportType == "rateio_rzk" || reportType == "clientes_por_licenciado"
  }

  /** The arguments every pagination link starts from. */
  function PaginationArgs(r: ReportRequest): (q: Query)
    ensures Lookup(q, "report_type") == Some(r.reportType)
    ensures Lookup(q, "fornecedora").Some? <==> r.supplier != "Consolidado" && !SupplierBlind(r.reportType)
    ensures Lookup(q, "fornecedora").Some? ==> Lookup(q, "fornecedora") == Some(r.supplier)
    ensures Lookup(q, "page").None?
  {
    var q := [("report_type", r.reportType)];
    if r.supplier != "Consolidado" && !SupplierBlind(r.reportType) then SetParam(q, "fornecedora", r.supplier) else q
  }

  /** The arguments of the export link. */
  function ExportArgs(r: ReportRequest): (q: Query)
    ensures Lookup(q, "report_type") == Some(r.reportType)
    ensures Lookup(q, "fornecedora").Some? <==> r.supplier != "" && !SupplierBlind(r.reportType)
    ensures Lookup(q, "fornecedora").Some? ==> Lookup(q, "fornecedora") == Some(r.supplier)
    ensures Lookup(q, "page").None?
  {
    var q := [("report_type", r.reportType)];
    if r.supplier != "" && !SupplierBlind(r.reportType) then SetParam(q, "fornecedora", r.supplier) else q
  }

  /** Since the supplier defaults to 'Consolidado' it is never empty, so the
      export link names it for every report but the two supplier-blind
      ones, and the two argument sets differ only in that the export link
      also names 'Consolidado'. */
  lemma ExportAlwaysNamesSupplier(address: Query)
    ensures var r := RequestOf(address);
            (Lookup(ExportArgs(r), "fornecedora").Some? <==> !SupplierBlind(r.reportType))
            && (r.supplier != "Consolidado" ==> ExportArgs(r) == PaginationArgs(r))
  {
  }

  // ------------------------------------------------------------ pagination

  /** One `li` of the pagination bar, by the page it leads to: the previous
      and next buttons (None when disabled), a page number (None for the
      active page, else its own number) and the '...' filler. */
  datatype Entry = Prev(to: Option<int>) | Number(n: int, to: Option<int>) | Gap | Next(to: Option<int>)

  /** The page an entry links to, if it is a link. */
  function Target(e: Entry): Option<int>
  {
    if e.Gap? then None else e.to
  }

  function Max(a: int, b: int): int { if a < b then b else a }
  function Min(a: int, b: int): int { if a < b then a else b }

  /** The first and last numbered page around the current one. */
  function First(page: int): int { Max(1, page - 2) }
  function Last(page: int, total: int): int { Min(total, page + 2) }

  /** The numbered entry for page `p`: active when it is the current page,
      else a link to `p`. */
  function PageItem(p: int, page: int): (e: Entry)
    ensures e.Number? && e.n == p
    ensures e.to.None? <==> p == page
    ensures e.to.Some? ==> e.to.value == p
  {
    Number(p, if p == page then None else Some(p))
  }

  /** The numbered window `from .. to`. */
  function Window(from: int, to: int, page: int): (w: seq<Entry>)
    decreases to - from + 1
    ensures |w| == Max(0, to - from + 1)
    ensures forall i :: 0 <= i < |w| ==> w[i] == PageItem(from + i, page)
  {
    if from > to then [] else [PageItem(from, page)] + Window(from + 1, to, page)
  }

  /** Page 1 and a '...' before the window, when the window starts later. */
  function Lead(first: int): seq<Entry>
  {
    if first > 1 then [Number(1, Some(1))] + (if first > 2 then [Gap] else []) else []
  }

  /** A '...' and the last page after the window, when it ends earlier. */
  function Trail(last: int, total: int): seq<Entry>
  {
    if last < total then (if last < total - 1 then [Gap] else []) + [Number(total, Some(total))] else []
  }

  /** The entries between the two buttons. */
  function Middle(page: int, total: int): seq<Entry>
  {
    Lead(First(page)) + Window(First(page), Last(page, total), page) + Trail(Last(page, total), total)
  }

  /** The bar `buildPagination` renders, entry by entry. */
  function Bar(page: int, total: int): (es: seq<Entry>)
    ensures total <= 1 <==> es == []
    ensures es != [] ==> es[0].Prev? && es[|es| - 1].Next?
  {
    if total <= 1 then []
    else
      [Prev(if page > 1 then Some(page - 1) else None)]
      + Middle(page, total)
      + [Next(if page < total then Some(page + 1) else None)]
  }

  /** The page numbers of a run of entries, in order. */
  function Numbers(es: seq<Entry>): (ns: seq<int>)
    decreases |es|
  {
    if es == [] then []
    else (if es[0].Number? then [es[0].n] else []) + Numbers(es[1..])
  }

  lemma {:induction false} NumbersConcat(a: seq<Entry>, b: seq<Entry>)
    ensures Numbers(a + b) == Numbers(a) + Numbers(b)
    decreases |a|
  {
    if a != [] {
      NumbersConcat(a[1..], b);
      TailOfConcat(a, b);
    } else {
      assert a + b == b;
    }
  }

  /** The window's numbers are `from, from + 1, .., to`. */
  lemma {:induction false} WindowNumbers(from: int, to: int, page: int)
    decreases to - from + 1
    ensures |Numbers(Window(from, to, page))| == Max(0, to - from + 1)
    ensures forall i :: 0 <= i < |Numbers(Window(from, to, page))| ==> Numbers(Window(from, to, page))[i] == from + i
  {
    if from <= to {
      WindowNumbers(from + 1, to, page);
      var w := Window(from, to, page);
      assert w[1..] == Window(from + 1, to, page);
    }
  }

  predicate Increasing(ns: seq<int>)
  {
    forall i, j :: 0 <= i < j < |ns| ==> ns[i] < ns[j]
  }

  lemma LeadNumbers(first: int)
    ensures Numbers(Lead(first)) == if first > 1 then [1] else []
  {
    if first > 1 {
      NumbersConcat([Number(1, Some(1))], if first > 2 then [Gap] else []);
    }
  }

  lemma TrailNumbers(last: int, total: int)
    ensures Numbers(Trail(last, total)) == if last < total then [total] else []
  {
    if last < total {
      NumbersConcat(if last < total - 1 then [Gap] else [], [Number(total, Some(total))]);
    }
  }

  /** The bar's numbers: 1 when the window starts after it, the window,
      then the last page when the window ends before it. */
  lemma BarNumbers(page: int, total: int)
    requires total > 1
    ensures var f, l := First(page), Last(page, total);
            Numbers(Bar(page, total))
            == (if f > 1 then [1] else []) + Numbers(Window(f, l, page)) + (if l < total then [total] else [])
  {
    var f, l := First(page), Last(page, total);
    var m := Middle(page, total);
    assert Numbers(m) == Numbers(Lead(f)) + Numbers(Window(f, l, page)) + Numbers(Trail(l, total)) by {
      NumbersConcat(Lead(f), Window(f, l, page));
      NumbersConcat(Lead(f) + Window(f, l, page), Trail(l, total));
    }
    LeadNumbers(f);
    TrailNumbers(l, total);
    var p := [Prev(if page > 1 then Some(page - 1) else None)];
    var n := [Next(if page < total then Some(page + 1) else None)];
    assert Numbers(Bar(page, total)) == Numbers(m) by {
      assert Bar(page, total) == p + m + n;
      NumbersConcat(p, m);
      NumbersConcat(p + m, n);
      assert Numbers(p) == [] && Numbers(n) == [];
    }
  }

  /** No page number appears twice: the numbers rise from left to right. */
  lemma PagesIncrease(page: int, total: int)
    ensures Increasing(Numbers(Bar(page, total)))
  {
    if total > 1 {
      BarNumbers(page, total);
      var f, l := First(page), Last(page, total);
      WindowNumbers(f, l, page);
      var ns := Numbers(Bar(page, total));
      var lead: seq<int> := if f > 1 then [1] else [];
      var win := Numbers(Window(f, l, page));
      var trail: seq<int> := if l < total then [total] else [];
      forall i, j | 0 <= i < j < |ns|
        ensures ns[i] < ns[j]
      {
        if i < |lead| {
          if j < |lead| + |win| {
            assert ns[j] == win[j - |lead|];
          } else {
            assert ns[j] == total;
          }
        } else {
          assert ns[i] == win[i - |lead|];
          if j < |lead| + |win| {
            assert ns[j] == win[j - |lead|];
          } else {
            assert ns[j] == total;
          }
        }
      }
    }
  }

  /** For a page inside 1 .. total the first page, the last page and the
      current page are all on the bar. */
  lemma EndsAndCurrentShown(page: int, total: int)
    requires 1 <= page <= total && total > 1
    ensures 1 in Numbers(Bar(page, total))
    ensures total in Numbers(Bar(page, total))
    ensures page in Numbers(Bar(page, total))
  {
    BarNumbers(page, total);
    var f, l := First(page), Last(page, total);
    WindowNumbers(f, l, page);
    var win := Numbers(Window(f, l, page));
    assert win[page - f] == page;
    if f == 1 {
      assert win[0] == 1;
    }
    if l == total {
      assert win[total - f] == total;
    }
  }

  /** Position `i` of the bar, found in its part. */
  lemma BarParts(page: int, total: int, i: int)
    requires total > 1 && 0 < i < |Bar(page, total)| - 1
    ensures var f, l := First(page), Last(page, total);
            var lead, win := Lead(f), Window(f, l, page);
            var es := Bar(page, total);
            (i < 1 + |lead| ==> es[i] == lead[i - 1])
            && (1 + |lead| <= i < 1 + |lead| + |win| ==> es[i] == win[i - 1 - |lead|])
            && (1 + |lead| + |win| <= i ==> es[i] == Trail(l, total)[i - 1 - |lead| - |win|])
  {
  }

  /** Every numbered entry links to its own page, except the current page,
      which is the one active entry. */
  lemma NumbersLinkToThemselves(page: int, total: int, i: int)
    requires 0 <= i < |Bar(page, total)| && Bar(page, total)[i].Number?
    ensures var e := Bar(page, total)[i];
            (e.to.None? <==> e.n == page) && (e.to.Some? ==> e.to.value == e.n)
  {
    BarParts(page, total, i);
  }

  /** The buttons: Previous is disabled iff the page is at most 1 and Next
      iff it is at least the total; an enabled one leads to the page next
      to the current one. */
  lemma Buttons(page: int, total: int)
    requires total > 1
    ensures var es := Bar(page, total);
            (es[0].to.None? <==> page <= 1)
            && (es[0].to.Some? ==> es[0].to.value == page - 1)
            && (es[|es| - 1].to.None? <==> page >= total)
            && (es[|es| - 1].to.Some? ==> es[|es| - 1].to.value == page + 1)
  {
  }

  /** For a page inside 1 .. total, a '...' follows page 1 iff the window
      starts after page 2, and one precedes the last page iff the window
      ends before the page just below it. */
  lemma Gaps(page: int, total: int)
    requires 1 <= page <= total && total > 1
    ensures var es := Bar(page, total);
            |es| >= 4
            && (es[2].Gap? <==> First(page) > 2)
            && (es[|es| - 3].Gap? <==> Last(page, total) < total - 1)
  {
    var es := Bar(page, total);
    var f, l := First(page), Last(page, total);
    var lead, win, trail := Lead(f), Window(f, l, page), Trail(l, total);
    assert |win| >= 2;
    BarParts(page, total, 2);
    BarParts(page, total, |es| - 3);
    if f <= 1 {
      assert es[2] == win[1];
    }
    if l >= total {
      assert es[|es| - 3] == win[|win| - 2];
    }
  }

  /** A rendered `li`: its entry and, for a link, the arguments after `?`. */
  datatype Li = Li(entry: Entry, href: Option<Query>)

  /** The link arguments for page `p`: the base arguments with `page` set. */
  function PageArgs(base: Query, p: int): (q: Query)
  {
    SetParam(base, "page", ApiRoutes.IntText(p))
  }

  function Href(e: Entry, base: Query): Option<Query>
  {
    if Target(e).Some? then Some(PageArgs(base, Target(e).value)) else None
  }

  /** Entries rendered against the base arguments. */
  function Render(es: seq<Entry>, base: Query): (r: seq<Li>)
    ensures |r| == |es|
    ensures forall i :: 0 <= i < |es| ==> r[i] == Li(es[i], Href(es[i], base))
  {
    seq(|es|, i requires 0 <= i < |es| => Li(es[i], Href(es[i], base)))
  }

  /** What `buildPagination` appends to the navigation. */
  function Pagination(page: int, total: int, base: Query): seq<Li>
  {
    Render(Bar(page, total), base)
  }

  ghost predicate LeadsTo(q: Query, base: Query, p: int)
  {
    Lookup(q, "page") == Some(ApiRoutes.IntText(p)) && forall k :: k != "page" ==> Lookup(q, k) == Lookup(base, k)
  }

  /** Exactly the entries with a target are links, and each link carries
      the base arguments with `page` set to its target. */
  lemma LinksLeadToTargets(page: int, total: int, base: Query, i: int)
    requires 0 <= i < |Pagination(page, total, base)|
    ensures var li := Pagination(page, total, base)[i];
            (li.href.Some? <==> Target(li.entry).Some?)
            && (li.href.Some? ==> LeadsTo(li.href.value, base, Target(li.entry).value))
  {
  }

  /** `buildPagination`: nothing for at most one page; otherwise the
      buttons and numbers, each link made by setting `page` on the one
      shared argument set just before it is rendered. */
  method BuildPagination(page: int, total: int, baseArgs: Query) returns (items: seq<Li>)
    ensures items == Pagination(page, total, baseArgs)
  {
    items := [];
    if total <= 1 {
      return;
    }
    var first := Max(1, page - 2);
    var last := Min(total, page + 2);
    var head, args, lastSet := LinkHead(page, baseArgs);
    var numbered;
    numbered, args, lastSet := LinkWindow(first, last, page, baseArgs, args, lastSet);
    var tail := LinkTail(page, total, baseArgs, args, lastSet);
    items := head + numbered + tail;
    RenderBar(page, total, baseArgs);
  }

  /** The bar rendered in three pieces: up to the window, the window, and
      after it. */
  lemma RenderBar(page: int, total: int, base: Query)
    requires total > 1
    ensures var prev := [Prev(if page > 1 then Some(page - 1) else None)] + Lead(First(page));
            var next := Trail(Last(page, total), total) + [Next(if page < total then Some(page + 1) else None)];
            Pagination(page, total, base)
            == Render(prev, base) + Render(Window(First(page), Last(page, total), page), base) + Render(next, base)
  {
    var prev := [Prev(if page > 1 then Some(page - 1) else None)] + Lead(First(page));
    var next := Trail(Last(page, total), total) + [Next(if page < total then Some(page + 1) else None)];
    var w := Window(First(page), Last(page, total), page);
    assert Bar(page, total) == prev + w + next by {
      BarGrouped(Prev(if page > 1 then Some(page - 1) else None), Lead(First(page)), w,
                 Trail(Last(page, total), total), Next(if page < total then Some(page + 1) else None));
    }
    RenderConcat(prev, w, base);
    RenderConcat(prev + w, next, base);
  }

  lemma BarGrouped(p: Entry, lead: seq<Entry>, w: seq<Entry>, trail: seq<Entry>, n: Entry)
    ensures [p] + (lead + w + trail) + [n] == ([p] + lead) + w + (trail + [n])
  {
  }

  /** The Previous button, then page 1 and a '...' when the window starts
      later; `args` is left as the last link set it. */
  method LinkHead(page: int, baseArgs: Query) returns (items: seq<Li>, args: Query, ghost lastSet: Option<string>)
    ensures items == Render([Prev(if page > 1 then Some(page - 1) else None)] + Lead(First(page)), baseArgs)
    ensures args == if lastSet.None? then baseArgs else SetParam(baseArgs, "page", lastSet.value)
  {
    args, lastSet := baseArgs, None;
    ghost var es: seq<Entry> := [];
    if page > 1 {
      args := SetParam(args, "page", ApiRoutes.IntText(page - 1));
      lastSet := Some(ApiRoutes.IntText(page - 1));
      items, es := [Li(Prev(Some(page - 1)), Some(args))], [Prev(Some(page - 1))];
    } else {
      items, es := [Li(Prev(None), None)], [Prev(None)];
    }
    var first := Max(1, page - 2);
    if first > 1 {
      SetAgain(baseArgs, args, lastSet, 1);
      args := SetParam(args, "page", ApiRoutes.IntText(1));
      lastSet := Some(ApiRoutes.IntText(1));
      RenderSnoc(es, Number(1, Some(1)), baseArgs);
      items, es := items + [Li(Number(1, Some(1)), Some(args))], es + [Number(1, Some(1))];
      if first > 2 {
        RenderSnoc(es, Gap, baseArgs);
        items, es := items + [Li(Gap, None)], es + [Gap];
      }
    }
  }

  /** A '...' and the last page when the window ends earlier, then the
      Next button. */
  method LinkTail(page: int, total: int, baseArgs: Query, args0: Query, ghost set0: Option<string>) returns (items: seq<Li>)
    requires args0 == if set0.None? then baseArgs else SetParam(baseArgs, "page", set0.value)
    ensures items == Render(Trail(Last(page, total), total) + [Next(if page < total then Some(page + 1) else None)], baseArgs)
  {
    var args;
    ghost var lastSet;
    items, args, lastSet := LinkLast(page, total, baseArgs, args0, set0);
    ghost var es := Trail(Last(page, total), total);
    if page < total {
      SetAgain(baseArgs, args, lastSet, page + 1);
      args := SetParam(args, "page", ApiRoutes.IntText(page + 1));
      RenderSnoc(es, Next(Some(page + 1)), baseArgs);
      items := items + [Li(Next(Some(page + 1)), Some(args))];
    } else {
      RenderSnoc(es, Next(None), baseArgs);
      items := items + [Li(Next(None), None)];
    }
  }

  /** The ellipsis and the link to the last page, when the window stops
      short of it. */
  method LinkLast(page: int, total: int, baseArgs: Query, args0: Query, ghost set0: Option<string>)
    returns (items: seq<Li>, args: Query, ghost lastSet: Option<string>)
    requires args0 == if set0.None? then baseArgs else SetParam(baseArgs, "page", set0.value)
    ensures items == Render(Trail(Last(page, total), total), baseArgs)
    ensures args == if lastSet.None? then baseArgs else SetParam(baseArgs, "page", lastSet.value)
  {
    args, lastSet := args0, set0;
    ghost var es: seq<Entry> := [];
    items := [];
    var last := Min(total, page + 2);
    if last < total {
      if last < total - 1 {
        items, es := [Li(Gap, None)], [Gap];
      }
      SetAgain(baseArgs, args, lastSet, total);
      args := SetParam(args, "page", ApiRoutes.IntText(total));
      lastSet := Some(ApiRoutes.IntText(total));
      RenderSnoc(es, Number(total, Some(total)), baseArgs);
      items, es := items + [Li(Number(total, Some(total)), Some(args))], es + [Number(total, Some(total))];
    }
    assert es == Trail(last, total);
  }

  /** Setting `page` on the shared arguments gives the same link as setting
      it on the base ones. */
  lemma SetAgain(base: Query, args: Query, lastSet: Option<string>, p: int)
    requires args == if lastSet.None? then base else SetParam(base, "page", lastSet.value)
    ensures SetParam(args, "page", ApiRoutes.IntText(p)) == PageArgs(base, p)
  {
    if lastSet.Some? {
      SetParamTwice(base, "page", lastSet.value, ApiRoutes.IntText(p));
    }
  }

  /** The `for` loop over the window: each page sets `page` on the shared
      arguments, then renders as the active entry or as a link. */
  method LinkWindow(first: int, last: int, page: int, baseArgs: Query, args0: Query, ghost set0: Option<string>)
    returns (items: seq<Li>, args: Query, ghost lastSet: Option<string>)
    requires args0 == if set0.None? then baseArgs else SetParam(baseArgs, "page", set0.value)
    ensures items == Render(Window(first, last, page), baseArgs)
    ensures args == if lastSet.None? then baseArgs else SetParam(baseArgs, "page", lastSet.value)
  {
    items, args, lastSet := [], args0, set0;
    var p := first;
    while p <= last
      invariant first <= p <= Max(first, last + 1)
      invariant args == if lastSet.None? then baseArgs else SetParam(baseArgs, "page", lastSet.value)
      invariant items == Render(Window(first, p - 1, page), baseArgs)
    {
      SetAgain(baseArgs, args, lastSet, p);
      args := SetParam(args, "page", ApiRoutes.IntText(p));
      lastSet := Some(ApiRoutes.IntText(p));
      var e := if p == page then Number(p, None) else Number(p, Some(p));
      RenderSnoc(Window(first, p - 1, page), e, baseArgs);
      assert Window(first, p, page) == Window(first, p - 1, page) + [e];
      items := items + [Li(e, if p == page then None else Some(args))];
      p := p + 1;
    }
  }

  lemma RenderConcat(a: seq<Entry>, b: seq<Entry>, base: Query)
    ensures Render(a + b, base) == Render(a, base) + Render(b, base)
  {
  }

  lemma RenderSnoc(es: seq<Entry>, e: Entry, base: Query)
    ensures Render(es + [e], base) == Render(es, base) + [Li(e, Href(e, base))]
  {
  }

  // ------------------------------------------------------------------ table

  /** A body row: the cells of one record, or the one centred message cell
      spanning `span` columns. */
  datatype BodyRow = Cells(cells: seq<string>) | Message(text: string, span: int)

  /** The header row (if any) and the body rows. */
  datatype TableView = TableView(header: Option<seq<string>>, body: seq<BodyRow>)

  const NoDataText: string := "Nenhum dado encontrado para os filtros selecionados."

  /** What `buildTable` leaves in the table: nothing without headers; the
      headers and one message row spanning them without data; else the
      headers and one row per record with one cell per value. */
  function Table(headers: Option<seq<string>>, data: Option<seq<seq<string>>>): (t: TableView)
    ensures headers.None? || headers == Some([]) ==> t == TableView(None, [])
    ensures headers.Some? && headers.value != [] ==> t.header == headers
    ensures headers.Some? && headers.value != [] && (data.None? || data == Some([])) ==>
              t.body == [Message(NoDataText, |headers.value|)]
    ensures headers.Some? && headers.value != [] && data.Some? && data.value != [] ==>
              |t.body| == |data.value| && forall i :: 0 <= i < |data.value| ==> t.body[i] == Cells(data.value[i])
  {
    if headers.None? || headers.value == [] then TableView(None, [])
    else if data.None? || data.value == [] then TableView(headers, [Message(NoDataText, |headers.value|)])
    else TableView(headers, seq(|data.value|, i requires 0 <= i < |data.value| => Cells(data.value[i])))
  }

  /** The inner `forEach`: one `td` per value of the record. */
  method BuildRow(record: seq<string>) returns (tds: seq<string>)
    ensures tds == record
  {
    tds := [];
    var j := 0;
    while j < |record|
      invariant 0 <= j <= |record|
      invariant tds == record[..j]
    {
      assert record[..j + 1] == record[..j] + [record[j]];
      tds := tds + [record[j]];
      j := j + 1;
    }
  }

  /** `buildTable`: both parts are cleared, then filled. */
  method BuildTable(headers: Option<seq<string>>, data: Option<seq<seq<string>>>) returns (t: TableView)
    ensures t == Table(headers, data)
  {
    t := TableView(None, []);
    if headers.None? || headers.value == [] {
      return;
    }
    t := t.(header := headers);
    if data.None? || data.value == [] {
      t := t.(body := [Message(NoDataText, |headers.value|)]);
      return;
    }
    var rows := data.value;
    var body: seq<BodyRow> := [];
    var i := 0;
    while i < |rows|
      invariant 0 <= i <= |rows|
      invariant |body| == i && forall k :: 0 <= k < i ==> body[k] == Cells(rows[k])
    {
      var tds := BuildRow(rows[i]);
      body := body + [Cells(tds)];
      i := i + 1;
    }
    t := t.(body := body);
  }

  // ----------------------------------------------------------------- search

  /** A row's `textContent`: its cells' texts joined with nothing between. */
  function RowText(r: BodyRow): string
  {
    match r
    case Cells(cs) => Join(cs)
    case Message(text, _) => text
  }

  function Join(cs: seq<string>): string
    decreases |cs|
  {
    if cs == [] then "" else cs[0] + Join(cs[1..])
  }

  /** This page's own filter: the row's whole text, lower-cased, contains
      the lower-cased term. */
  predicate Shown(r: BodyRow, term: string)
  {
    Contains(Lower(RowText(r)), Lower(term))
  }

  /** The displays this page's handler sets. */
  function SearchDisplays(body: seq<BodyRow>, term: string): (ds: seq<string>)
    ensures |ds| == |body|
    ensures forall i :: 0 <= i < |body| ==> (ds[i] == "" <==> Shown(body[i], term))
    ensures forall i :: 0 <= i < |body| ==> (ds[i] == "none" <==> !Shown(body[i], term))
  {
    seq(|body|, i requires 0 <= i < |body| => if Shown(body[i], term) then "" else "none")
  }

  /** The `td` texts the shared script's filter sees in a body row. */
  function Tds(r: BodyRow): TableSearch.RowCells
  {
    match r
    case Cells(cs) => cs
    case Message(text, _) => [text]
  }

  lemma LowerConcat(a: string, b: string)
    ensures Lower(a + b) == Lower(a) + Lower(b)
  {
  }

  /** Text found in a piece is found in anything the piece is part of. */
  lemma ContainsWithin(a: string, b: string, c: string, t: string)
    requires Contains(b, t)
    ensures Contains(a + b + c, t)
  {
    var i :| 0 <= i <= |b| && OccursAt(b, t, i);
    assert (a + b + c)[|a| + i..|a| + i + |t|] == b[i..i + |t|];
    assert OccursAt(a + b + c, t, |a| + i);
  }

  lemma {:induction false} JoinSplit(cs: seq<string>, k: int)
    requires 0 <= k < |cs|
    ensures Join(cs) == Join(cs[..k]) + cs[k] + Join(cs[k + 1..])
    decreases k
  {
    if k > 0 {
      JoinSplit(cs[1..], k - 1);
      assert cs[1..][..k - 1] == cs[1..k];
      assert cs[1..][k..] == cs[k + 1..];
      assert Join(cs[..k]) == cs[0] + Join(cs[1..k]) by {
        assert cs[..k][1..] == cs[1..k];
      }
    } else {
      assert cs[1..] == cs[k + 1..];
    }
  }

  /** Any row the shared script's filter shows (some cell holds the term)
      is shown by this page's filter too. */
  lemma CellMatchShowsRow(r: BodyRow, term: string)
    requires TableSearch.RowMatches(Tds(r), term)
    ensures Shown(r, term)
  {
    var cs := Tds(r);
    var k :| 0 <= k < |cs| && TableSearch.CellMatches(cs[k], term);
    if r.Cells? {
      JoinSplit(cs, k);
      LowerConcat(Join(cs[..k]) + cs[k], Join(cs[k + 1..]));
      LowerConcat(Join(cs[..k]), cs[k]);
      ContainsWithin(Lower(Join(cs[..k])), Lower(cs[k]), Lower(Join(cs[k + 1..])), Lower(term));
    }
  }

  /** The converse fails: a term spanning two neighbouring cells matches the
      joined row text but no single cell. */
  lemma SpanningTermDiffers()
    ensures Shown(Cells(["ab", "cd"]), "bc")
    ensures !TableSearch.RowMatches(Tds(Cells(["ab", "cd"])), "bc")
  {
    var r := Cells(["ab", "cd"]);
    assert RowText(r) == "abcd";
    assert Lower("abcd") == "abcd";
    assert Lower("bc") == "bc";
    assert OccursAt("abcd", "bc", 1);
    assert Lower("ab") == "ab" && Lower("cd") == "cd";
    assert !Contains("ab", "bc") by {
      assert "ab"[0..2][0] != "bc"[0];
    }
    assert !Contains("cd", "bc") by {
      assert "cd"[0..2][0] != "bc"[0];
    }
  }
}
