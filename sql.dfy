// The shape of a parameterised SQL query as the report layer builds it:
// query text made of fixed SQL, "%s" placeholders and (rarely) a bare '%',
// plus the positional parameter tuple handed to the driver with it.
module SqlText {
  import opened Common

  /** What a placeholder (or the parameter bound to it) stands for. */
  datatype Role = Supplier | Limit | Offset | CancelledPattern | StartDate | EndDate | IdList | WindowStart | WindowEnd | Year

  /** A value passed to, or returned by, the database. */
  datatype Value = Null | Text(s: string) | Int(n: int) | Ids(ids: seq<int>) | Day(d: Date)

  /** One positional parameter, tagged with the role of the clause that
      appended it. */
  datatype Param = Param(role: Role, value: Value)

  /** Query text, piece by piece. `Lit` is fixed SQL text holding no '%'
      character (the source's fixed SQL has none, apart from the one pattern
      literal that `Pct` stands for); `Slot` is a "%s" placeholder; `Pct` is a
      bare '%' written inside the text. */
  datatype Piece = Lit(text: string) | Slot(role: Role) | Pct

  datatype Query = Query(pieces: seq<Piece>, params: seq<Param>)

  type Row = seq<Value>

  /** The text sent to the driver. */
  function Render(ps: seq<Piece>): (r: string)
  {
    if |ps| == 0 then ""
    else (match ps[0] case Lit(t) => t case Slot(_) => "%s" case Pct => "%") + Render(ps[1..])
  }

  /** Roles of the placeholders, in text order. */
  function SlotRoles(ps: seq<Piece>): (r: seq<Role>)
    ensures |r| <= |ps|
  {
    if |ps| == 0 then []
    else (if ps[0].Slot? then [ps[0].role] else []) + SlotRoles(ps[1..])
  }

  function Roles(params: seq<Param>): (r: seq<Role>)
    ensures |r| == |params|
    ensures forall i :: 0 <= i < |params| ==> r[i] == params[i].role
  {
    seq(|params|, i requires 0 <= i < |params| => params[i].role)
  }

  /** What the driver's pyformat pass makes of the text: the roles of the
      "%s" directives in order, or None when some '%' starts no valid
      directive ("%%" is an escaped percent sign; a '%' followed by a quote,
      as in a LIKE pattern, is an error). */
  function Directives(ps: seq<Piece>): (r: Option<seq<Role>>)
    decreases |ps|
  {
    if |ps| == 0 then Some([])
    else match ps[0]
      case Lit(_) => Directives(ps[1..])
      case Slot(role) =>
        (match Directives(ps[1..]) case None => None case Some(rs) => Some([role] + rs))
      case Pct => if |ps| >= 2 && ps[1] == Pct then Directives(ps[2..]) else None
  }

  /** The driver accepts the query and binds the i-th parameter to the i-th
      placeholder, whose clause has the same role. */
  predicate Binds(q: Query)
  {
    Directives(q.pieces) == Some(Roles(q.params))
  }

  lemma {:induction false} SlotRolesAppend(a: seq<Piece>, b: seq<Piece>)
    ensures SlotRoles(a + b) == SlotRoles(a) + SlotRoles(b)
    decreases |a|
  {
    if |a| == 0 {
      assert a + b == b;
    } else {
      assert (a + b)[0] == a[0];
      assert (a + b)[1..] == a[1..] + b;
      SlotRolesAppend(a[1..], b);
    }
  }

  lemma RolesAppend(a: seq<Param>, b: seq<Param>)
    ensures Roles(a + b) == Roles(a) + Roles(b)
  {
  }

  /** Text without a bare '%' is read as exactly its placeholders. */
  lemma {:induction false} DirectivesOfPctFree(ps: seq<Piece>)
    requires Pct !in ps
    ensures Directives(ps) == Some(SlotRoles(ps))
    decreases |ps|
  {
    if |ps| > 0 {
      assert ps[0] != Pct && ps[0] in ps;
      assert forall x :: x in ps[1..] ==> x in ps;
      DirectivesOfPctFree(ps[1..]);
      var rest := SlotRoles(ps[1..]);
      match ps[0]
      case Lit(_) =>
        assert Directives(ps) == Directives(ps[1..]);
        assert SlotRoles(ps) == rest;
      case Slot(role) =>
        assert Directives(ps) == Some([role] + rest);
        assert SlotRoles(ps) == [role] + rest;
    }
  }

  /** A query the driver accepts has one placeholder per parameter, and a
      placeholder of a role exactly when a parameter of that role is passed. */
  lemma BoundPlaceholders(q: Query, role: Role)
    requires Binds(q)
    ensures |Directives(q.pieces).value| == |q.params|
    ensures role in Directives(q.pieces).value <==> exists i :: 0 <= i < |q.params| && q.params[i].role == role
  {
    var rs := Roles(q.params);
    if role in rs {
      var i :| 0 <= i < |rs| && rs[i] == role;
      assert q.params[i].role == role;
    }
  }

  // ------------------------------------------------------------ clauses

  /** `col = %s`-style condition: fixed text followed by one placeholder. */
  function Cond(text: string, role: Role): (r: seq<Piece>)
    ensures SlotRoles(r) == [role] && Pct !in r
  {
    [Lit(text), Slot(role)]
  }

  /** Conditions written as fixed text only. */
  function Fixed(texts: seq<string>): (r: seq<seq<Piece>>)
    ensures |r| == |texts|
    ensures forall i :: 0 <= i < |texts| ==> r[i] == [Lit(texts[i])]
  {
    seq(|texts|, i requires 0 <= i < |texts| => [Lit(texts[i])])
  }

  /** `" AND ".join(conds)`. */
  function JoinAnd(conds: seq<seq<Piece>>): (r: seq<Piece>)
    decreases |conds|
  {
    if |conds| == 0 then []
    else if |conds| == 1 then conds[0]
    else conds[0] + [Lit(" AND ")] + JoinAnd(conds[1..])
  }

  /** `"WHERE " + " AND ".join(conds)` when there are conditions, else "". */
  function Where(conds: seq<seq<Piece>>): (r: seq<Piece>)
    ensures |conds| == 0 ==> r == []
  {
    if |conds| == 0 then [] else [Lit(" WHERE ")] + JoinAnd(conds)
  }

  /** The placeholder roles of a list of conditions, in order. */
  function CondRoles(conds: seq<seq<Piece>>): (r: seq<Role>)
    decreases |conds|
  {
    if |conds| == 0 then [] else SlotRoles(conds[0]) + CondRoles(conds[1..])
  }

  predicate CondsPctFree(conds: seq<seq<Piece>>)
  {
    forall i :: 0 <= i < |conds| ==> Pct !in conds[i]
  }

  lemma {:induction false} CondRolesAppend(a: seq<seq<Piece>>, b: seq<seq<Piece>>)
    ensures CondRoles(a + b) == CondRoles(a) + CondRoles(b)
    decreases |a|
  {
    if |a| == 0 {
      assert a + b == b;
    } else {
      assert (a + b)[0] == a[0];
      assert (a + b)[1..] == a[1..] + b;
      CondRolesAppend(a[1..], b);
    }
  }

  lemma {:induction false} FixedRoles(texts: seq<string>)
    ensures CondRoles(Fixed(texts)) == []
    ensures CondsPctFree(Fixed(texts))
    decreases |texts|
  {
    if |texts| > 0 {
      assert Fixed(texts)[1..] == Fixed(texts[1..]);
      FixedRoles(texts[1..]);
    }
  }

  lemma {:induction false} JoinAndRoles(conds: seq<seq<Piece>>)
    requires CondsPctFree(conds)
    ensures SlotRoles(JoinAnd(conds)) == CondRoles(conds)
    ensures Pct !in JoinAnd(conds)
    decreases |conds|
  {
    if |conds| == 1 {
      assert CondRoles(conds) == SlotRoles(conds[0]) + CondRoles(conds[1..]);
    } else if |conds| > 1 {
      JoinAndRoles(conds[1..]);
      SlotRolesAppend(conds[0] + [Lit(" AND ")], JoinAnd(conds[1..]));
      SlotRolesAppend(conds[0], [Lit(" AND ")]);
    }
  }

  /** The placeholders appended after ORDER BY. */
  function Paging(limit: bool, offset: bool): (r: seq<Piece>)
  {
    (if limit then [Lit(" LIMIT "), Slot(Limit)] else []) + (if offset then [Lit(" OFFSET "), Slot(Offset)] else [])
  }

  function PagingRoles(limit: bool, offset: bool): (r: seq<Role>)
  {
    (if limit then [Limit] else []) + (if offset then [Offset] else [])
  }

  /** The layout every report query follows: select/from/joins, then the
      WHERE conditions, then GROUP BY/ORDER BY text, then LIMIT and OFFSET,
      then the terminating ';'. */
  function Stmt(head: seq<Piece>, conds: seq<seq<Piece>>, tail: seq<Piece>, limit: bool, offset: bool): (r: seq<Piece>)
  {
    head + Where(conds) + tail + Paging(limit, offset) + [Lit(";")]
  }

  lemma WhereRoles(conds: seq<seq<Piece>>)
    requires CondsPctFree(conds)
    ensures SlotRoles(Where(conds)) == CondRoles(conds) && Pct !in Where(conds)
  {
    if |conds| > 0 {
      JoinAndRoles(conds);
      SlotRolesAppend([Lit(" WHERE ")], JoinAnd(conds));
    }
  }

  lemma PagingSlotRoles(limit: bool, offset: bool)
    ensures SlotRoles(Paging(limit, offset)) == PagingRoles(limit, offset) && Pct !in Paging(limit, offset)
  {
    SlotRolesAppend(if limit then [Lit(" LIMIT "), Slot(Limit)] else [], if offset then [Lit(" OFFSET "), Slot(Offset)] else []);
  }

  /** The driver reads a statement's placeholders in layout order: those of
      the head, of each condition in turn, of the tail, then LIMIT, OFFSET. */
  lemma StmtDirectives(head: seq<Piece>, conds: seq<seq<Piece>>, tail: seq<Piece>, limit: bool, offset: bool)
    requires Pct !in head && Pct !in tail && CondsPctFree(conds)
    ensures Directives(Stmt(head, conds, tail, limit, offset))
         == Some(SlotRoles(head) + CondRoles(conds) + SlotRoles(tail) + PagingRoles(limit, offset))
  {
    var w := Where(conds);
    var p := Paging(limit, offset);
    WhereRoles(conds);
    PagingSlotRoles(limit, offset);
    var hw := head + w;
    SlotRolesAppend(head, w);
    var hwt := hw + tail;
    SlotRolesAppend(hw, tail);
    var hwtp := hwt + p;
    SlotRolesAppend(hwt, p);
    var all := hwtp + [Lit(";")];
    SlotRolesAppend(hwtp, [Lit(";")]);
    assert SlotRoles([Lit(";")]) == [];
    assert Pct !in all;
    assert all == Stmt(head, conds, tail, limit, offset);
    assert SlotRoles(all) == SlotRoles(head) + CondRoles(conds) + SlotRoles(tail) + PagingRoles(limit, offset);
    DirectivesOfPctFree(all);
  }

  /** Whatever a condition contains ends up in the statement's text. */
  lemma {:induction false} JoinAndHas(conds: seq<seq<Piece>>, i: int, p: Piece)
    requires 0 <= i < |conds| && p in conds[i]
    ensures p in JoinAnd(conds)
    decreases |conds|
  {
    if |conds| > 1 {
      assert JoinAnd(conds) == conds[0] + [Lit(" AND ")] + JoinAnd(conds[1..]);
      if i > 0 {
        assert conds[1..][i - 1] == conds[i];
        JoinAndHas(conds[1..], i - 1, p);
      }
    }
  }

  lemma CondInStmt(head: seq<Piece>, conds: seq<seq<Piece>>, tail: seq<Piece>, limit: bool, offset: bool, i: int, p: Piece)
    requires 0 <= i < |conds| && p in conds[i]
    ensures p in Stmt(head, conds, tail, limit, offset)
  {
    JoinAndHas(conds, i, p);
  }

  // ------------------------------------------------------------ params

  /** `[fornecedora]` when the supplier filter applies, else `[]`. */
  function SupplierParams(f: Option<string>): (r: seq<Param>)
    ensures |r| <= 1
    ensures |r| == 1 <==> SupplierFilterApplies(f)
    ensures |r| == 1 ==> r[0] == Param(Supplier, Text(f.value))
  {
    if SupplierFilterApplies(f) then [Param(Supplier, Text(f.value))] else []
  }

  /** `[limit]` when limit is not None, then `[offset]` when offset > 0. */
  function PagingParams(limit: Option<int>, offset: int): (r: seq<Param>)
    ensures Roles(r) == PagingRoles(limit.Some?, offset > 0)
    ensures |r| <= 2
  {
    (if limit.Some? then [Param(Limit, Int(limit.value))] else [])
    + (if offset > 0 then [Param(Offset, Int(offset))] else [])
  }

  lemma SupplierRoles(f: Option<string>)
    ensures Roles(SupplierParams(f)) == if SupplierFilterApplies(f) then [Supplier] else []
  {
  }

  /** The supplier condition as the live report queries write it. */
  function SupplierCond(): (r: seq<Piece>)
    ensures SlotRoles(r) == [Supplier] && Pct !in r
  {
    Cond("c.fornecedora = ", Supplier)
  }

  /** Supplier condition list: `[cond]` exactly when the filter applies. */
  function SupplierConds(f: Option<string>, cond: seq<Piece>): (r: seq<seq<Piece>>)
    ensures |r| <= 1
    ensures |r| == 1 <==> SupplierFilterApplies(f)
  {
    if SupplierFilterApplies(f) then [cond] else []
  }

  /** Every report builder follows one pattern: some leading conditions with
      their own parameters, then the supplier condition exactly when the
      filter applies, then LIMIT exactly when a limit is given and OFFSET
      exactly when the offset is positive. Whatever the inputs, the driver
      then binds each parameter to the placeholder of its own clause. */
  lemma FilteredStmtBinds(head: seq<Piece>, pre: seq<seq<Piece>>, preParams: seq<Param>, cond: seq<Piece>,
                          tail: seq<Piece>, f: Option<string>, limit: Option<int>, offset: int)
    requires Pct !in head && SlotRoles(head) == [] && Pct !in tail && SlotRoles(tail) == []
    requires CondsPctFree(pre) && CondRoles(pre) == Roles(preParams)
    requires Pct !in cond && SlotRoles(cond) == [Supplier]
    ensures Binds(Query(Stmt(head, pre + SupplierConds(f, cond), tail, limit.Some?, offset > 0),
                        preParams + SupplierParams(f) + PagingParams(limit, offset)))
  {
    var conds := pre + SupplierConds(f, cond);
    var params := preParams + SupplierParams(f) + PagingParams(limit, offset);
    SupplierCondsRoles(pre, cond, f);
    StmtDirectives(head, conds, tail, limit.Some?, offset > 0);
    RolesAppend(preParams, SupplierParams(f));
    RolesAppend(preParams + SupplierParams(f), PagingParams(limit, offset));
    assert Roles(params) == CondRoles(conds) + PagingRoles(limit.Some?, offset > 0);
    assert SlotRoles(head) + CondRoles(conds) + SlotRoles(tail) + PagingRoles(limit.Some?, offset > 0) == Roles(params);
  }

  /** Preconditions shared by every report builder: the fixed text has no
      placeholder and no bare '%', and the leading conditions carry exactly
      the placeholders of their parameters. */
  predicate BuilderParts(head: seq<Piece>, pre: seq<seq<Piece>>, preParams: seq<Param>, cond: seq<Piece>, tail: seq<Piece>)
  {
    Pct !in head && SlotRoles(head) == [] && Pct !in tail && SlotRoles(tail) == []
    && CondsPctFree(pre) && CondRoles(pre) == Roles(preParams)
    && Pct !in cond && SlotRoles(cond) == [Supplier]
  }

  /** A builder whose head and tail are single fixed texts and whose
      leading conditions are fixed texts without parameters. */
  lemma FixedParts(head: string, conditions: seq<string>, cond: seq<Piece>, tail: string)
    requires Pct !in cond && SlotRoles(cond) == [Supplier]
    ensures BuilderParts([Lit(head)], Fixed(conditions), [], cond, [Lit(tail)])
  {
    FixedRoles(conditions);
    assert Roles([]) == [];
    assert [Lit(head)][1..] == [];
    assert [Lit(tail)][1..] == [];
  }

  /** The query a report builder produces. */
  function Filtered(head: seq<Piece>, pre: seq<seq<Piece>>, preParams: seq<Param>, cond: seq<Piece>,
                    tail: seq<Piece>, f: Option<string>, limit: Option<int>, offset: int): (q: Query)
    requires BuilderParts(head, pre, preParams, cond, tail)
    ensures Binds(q)
    ensures q.params == preParams + SupplierParams(f) + PagingParams(limit, offset)
  {
    FilteredStmtBinds(head, pre, preParams, cond, tail, f, limit, offset);
    Query(Stmt(head, pre + SupplierConds(f, cond), tail, limit.Some?, offset > 0),
          preParams + SupplierParams(f) + PagingParams(limit, offset))
  }

  /** A query made of one fixed head text, fixed conditions without
      parameters, the supplier condition `cond`, one fixed tail text and the
      paging clauses. */
  function FixedQuery(head: string, conditions: seq<string>, cond: seq<Piece>, tail: string,
                      f: Option<string>, limit: Option<int>, offset: int): (q: Query)
    requires Pct !in cond && SlotRoles(cond) == [Supplier]
    ensures Binds(q)
    ensures q.params == SupplierParams(f) + PagingParams(limit, offset)
  {
    FixedParts(head, conditions, cond, tail);
    var p := SupplierParams(f) + PagingParams(limit, offset);
    assert [] + p == p;
    Filtered([Lit(head)], Fixed(conditions), [], cond, [Lit(tail)], f, limit, offset)
  }

  /** The steps of a builder whose head, leading conditions and tail are
      fixed texts. */
  method BuildFixed(head: string, conditions: seq<string>, cond: seq<Piece>, tail: string,
                    f: Option<string>, limit: Option<int>, offset: int) returns (q: Query)
    requires Pct !in cond && SlotRoles(cond) == [Supplier]
    ensures q == FixedQuery(head, conditions, cond, tail, f, limit, offset)
  {
    FixedParts(head, conditions, cond, tail);
    q := BuildFiltered([Lit(head)], Fixed(conditions), [], cond, [Lit(tail)], f, limit, offset);
  }

  /** The builders' common steps: start from the leading conditions and
      their parameters; when the supplier filter applies, append its
      condition and the name; when a limit is given, append LIMIT and the
      limit; when the offset is positive, append OFFSET and the offset. */
  method BuildFiltered(head: seq<Piece>, pre: seq<seq<Piece>>, preParams: seq<Param>, cond: seq<Piece>,
                       tail: seq<Piece>, f: Option<string>, limit: Option<int>, offset: int) returns (q: Query)
    requires BuilderParts(head, pre, preParams, cond, tail)
    ensures q == Filtered(head, pre, preParams, cond, tail, f, limit, offset)
  {
    var conds := pre;
    var params := preParams;
    if SupplierFilterApplies(f) {
      conds := conds + [cond];
      params := params + [Param(Supplier, Text(f.value))];
    }
    var whereParams := params;
    if limit.Some? {
      params := params + [Param(Limit, Int(limit.value))];
    }
    if offset > 0 {
      params := params + [Param(Offset, Int(offset))];
    }
    assert conds == pre + SupplierConds(f, cond);
    assert whereParams == preParams + SupplierParams(f);
    assert params == whereParams + PagingParams(limit, offset);
    q := Query(Stmt(head, conds, tail, limit.Some?, offset > 0), params);
  }

  lemma SupplierCondsRoles(pre: seq<seq<Piece>>, cond: seq<Piece>, f: Option<string>)
    requires CondsPctFree(pre)
    requires Pct !in cond && SlotRoles(cond) == [Supplier]
    ensures CondsPctFree(pre + SupplierConds(f, cond))
    ensures CondRoles(pre + SupplierConds(f, cond)) == CondRoles(pre) + Roles(SupplierParams(f))
  {
    var sc := SupplierConds(f, cond);
    CondRolesAppend(pre, sc);
    SupplierRoles(f);
    if SupplierFilterApplies(f) {
      assert sc == [cond];
      assert CondRoles(sc) == SlotRoles(cond) + CondRoles(sc[1..]);
    } else {
      assert sc == [];
      assert pre + sc == pre;
    }
  }

  /** In a bound query whose parameters end with the paging ones, the LIMIT
      placeholder is present exactly when a limit is given and the OFFSET one
      exactly when the offset is positive. */
  lemma PagingPlaceholders(q: Query, pre: seq<Param>, limit: Option<int>, offset: int)
    requires Binds(q)
    requires q.params == pre + PagingParams(limit, offset)
    requires Limit !in Roles(pre) && Offset !in Roles(pre)
    ensures Limit in Directives(q.pieces).value <==> limit.Some?
    ensures Offset in Directives(q.pieces).value <==> offset > 0
  {
    RolesAppend(pre, PagingParams(limit, offset));
  }

  lemma SupplierParamsRoles(f: Option<string>)
    ensures Limit !in Roles(SupplierParams(f)) && Offset !in Roles(SupplierParams(f))
  {
  }

  // ------------------------------------------------------------ origin whitelist

  /** Origins accepted by the `backend/db` queries and the legacy
      `backend/database.py` ones. */
  const LiveOrigins: seq<string> := ["", "WEB", "BACKOFFICE", "APP"]
  /** Origins accepted by the root `database.py` queries. */
  const LegacyOrigins: seq<string> := ["", "WEB", "BACKOFFICE"]

  /** `(c.origem IS NULL OR c.origem IN (...))`: which client origins pass. */
  predicate OriginPasses(origin: Option<string>, allowed: seq<string>)
  {
    origin.None? || origin.value in allowed
  }

  /** The root module's whitelist is strictly narrower: every origin it lets
      through passes the live one, and clients from the mobile app ("APP")
      pass only the live one. */
  lemma OriginWhitelists(origin: Option<string>)
    ensures OriginPasses(origin, LegacyOrigins) ==> OriginPasses(origin, LiveOrigins)
    ensures OriginPasses(Some("APP"), LiveOrigins) && !OriginPasses(Some("APP"), LegacyOrigins)
  {
  }

  function QuotedList(vals: seq<string>): (r: string)
  {
    if |vals| == 0 then ""
    else if |vals| == 1 then "'" + vals[0] + "'"
    else "'" + vals[0] + "', " + QuotedList(vals[1..])
  }

  /** The origin condition as fixed text. */
  function OriginCond(allowed: seq<string>): (r: string)
  {
    "(c.origem IS NULL OR c.origem IN (" + QuotedList(allowed) + "))"
  }

  /** The whitelist conditions of the two query families. */
  const LiveOriginCond: string := OriginCond(LiveOrigins)
  const LegacyOriginCond: string := OriginCond(LegacyOrigins)

  // ------------------------------------------------------------ ID batches

  /** `[ids[i:i + size] for i in range(0, len(ids), size)]`. */
  function Batches(ids: seq<int>, size: nat): (r: seq<seq<int>>)
    requires size > 0
    decreases |ids|
  {
    if |ids| == 0 then []
    else if |ids| <= size then [ids]
    else [ids[..size]] + Batches(ids[size..], size)
  }

  /** The batches are consecutive slices of the input: their concatenation
      is the input. */
  lemma {:induction false} BatchesFlatten(ids: seq<int>, size: nat)
    requires size > 0
    ensures Flatten(Batches(ids, size)) == ids
    decreases |ids|
  {
    if |ids| == 0 {
    } else if |ids| <= size {
      FlattenCons(ids, []);
      assert ids + [] == ids;
    } else {
      var rest := Batches(ids[size..], size);
      BatchesFlatten(ids[size..], size);
      FlattenCons(ids[..size], rest);
      assert ids[..size] + ids[size..] == ids;
    }
  }

  /** Each batch is non-empty and at most `size` long, every one but the last
      is exactly `size` long. */
  lemma {:induction false} BatchesSizes(ids: seq<int>, size: nat)
    requires size > 0
    ensures forall k :: 0 <= k < |Batches(ids, size)| ==> 0 < |Batches(ids, size)[k]| <= size
    ensures forall k :: 0 <= k < |Batches(ids, size)| - 1 ==> |Batches(ids, size)[k]| == size
    decreases |ids|
  {
    if |ids| == 0 {
    } else if |ids| <= size {
    } else {
      var b := Batches(ids, size);
      var rest := Batches(ids[size..], size);
      BatchesSizes(ids[size..], size);
      assert b == [ids[..size]] + rest;
      assert forall k :: 1 <= k < |b| ==> b[k] == rest[k - 1];
    }
  }

  function Flatten<T>(bs: seq<seq<T>>): (r: seq<T>)
    decreases |bs|
  {
    if |bs| == 0 then [] else bs[0] + Flatten(bs[1..])
  }

  lemma FlattenCons<T>(b: seq<T>, bs: seq<seq<T>>)
    ensures Flatten([b] + bs) == b + Flatten(bs)
  {
    assert ([b] + bs)[1..] == bs;
  }

  lemma {:induction false} FlattenAppend<T>(a: seq<seq<T>>, b: seq<seq<T>>)
    ensures Flatten(a + b) == Flatten(a) + Flatten(b)
    decreases |a|
  {
    if |a| == 0 {
      assert a + b == b;
    } else {
      assert (a + b)[0] == a[0];
      assert (a + b)[1..] == a[1..] + b;
      FlattenAppend(a[1..], b);
    }
  }

  /** Slice `[i:i + size]` with Python's clamping at the end. */
  function Slice(ids: seq<int>, i: nat, size: nat): (r: seq<int>)
    requires i < |ids|
  {
    if i + size <= |ids| then ids[i..i + size] else ids[i..]
  }

  /** The remaining batches from index `i` on, while stepping by `size`. */
  lemma BatchesFrom(ids: seq<int>, i: nat, size: nat)
    requires size > 0 && i < |ids|
    ensures Batches(ids[i..], size) == [Slice(ids, i, size)] + (if i + size < |ids| then Batches(ids[i + size..], size) else [])
  {
    var s := ids[i..];
    if |s| <= size {
      assert Slice(ids, i, size) == s;
      assert Batches(s, size) == [s];
    } else {
      assert s[..size] == ids[i..i + size];
      assert s[size..] == ids[i + size..];
    }
  }

  // ------------------------------------------------------------ the driver

  /** What the driver's formatting pass checks: every '%' starts a valid
      directive and there are exactly as many "%s" as parameters. */
  predicate DriverAccepts(q: Query)
  {
    Directives(q.pieces).Some? && |Directives(q.pieces).value| == |q.params|
  }

  lemma BindsAccepted(q: Query)
    requires Binds(q)
    ensures DriverAccepts(q)
  {
  }

  /** `execute_query(query, params)`: the driver formats the text, then the
      server answers. The server is the parameter `db` (its own failures are
      whatever `db` returns for them); a formatting failure is caught inside
      `execute_query`, logged, and turned into an empty list. */
  function ExecuteQuery(db: Query -> seq<Row>, q: Query): (rows: seq<Row>)
    ensures !DriverAccepts(q) ==> rows == []
    ensures Binds(q) ==> rows == db(q)
  {
    if DriverAccepts(q) then db(q) else []
  }

  /** The first row of the answer, as the count helpers expect from a
      single-row fetch. */
  function FetchOne(db: Query -> seq<Row>, q: Query): (r: Option<Row>)
    ensures r.Some? <==> |ExecuteQuery(db, q)| > 0
    ensures r.Some? ==> r.value == ExecuteQuery(db, q)[0]
  {
    var rows := ExecuteQuery(db, q);
    if |rows| == 0 then None else Some(rows[0])
  }

  /** `[r[0] for r in results] if results else []` inside `try: ... except:
      return []`: an empty row raises IndexError and the whole list is lost. */
  function FirstColumn(rows: seq<Row>): (ids: seq<Value>)
    ensures (forall i :: 0 <= i < |rows| ==> |rows[i]| > 0) ==>
              |ids| == |rows| && forall i :: 0 <= i < |rows| ==> ids[i] == rows[i][0]
    ensures (exists i :: 0 <= i < |rows| && |rows[i]| == 0) ==> ids == []
  {
    if forall i :: 0 <= i < |rows| ==> |rows[i]| > 0 then seq(|rows|, i requires 0 <= i < |rows| => rows[i][0]) else []
  }

  /** `result[0] if result and result[0] is not None else 0`: an absent or
      empty row, or a NULL first column, counts as 0. */
  function CountOf(result: Option<Row>): (n: Value)
    ensures (result.None? || |result.value| == 0 || result.value[0] == Null) ==> n == Int(0)
    ensures result.Some? && |result.value| > 0 && result.value[0] != Null ==> n == result.value[0]
  {
    if result.None? || |result.value| == 0 || result.value[0] == Null then Int(0) else result.value[0]
  }

  // ------------------------------------------------------------ select lists

  /** A select-list entry: an expression and an optional `AS` alias. */
  datatype Field = Field(expr: string, alias: Option<string>)

  function FieldText(f: Field): (r: string)
  {
    match f.alias
    case None => f.expr
    case Some(a) => f.expr + " AS " + a
  }

  /** The column name the row comes back under: the alias when there is
      one, else the expression itself. */
  function FieldKey(f: Field): (r: string)
    ensures f.alias.Some? ==> r == f.alias.value
    ensures f.alias.None? ==> r == FieldText(f)
  {
    match f.alias
    case None => f.expr
    case Some(a) => a
  }

  /** A plain column. */
  function Col(expr: string): (f: Field)
    ensures FieldKey(f) == expr
  {
    Field(expr, None)
  }

  /** `expr AS alias`. */
  function As(expr: string, alias: string): (f: Field)
    ensures FieldKey(f) == alias
  {
    Field(expr, Some(alias))
  }

  /** `", ".join(fields)`. */
  function SelectList(fields: seq<Field>): (r: string)
    decreases |fields|
  {
    if |fields| == 0 then ""
    else if |fields| == 1 then FieldText(fields[0])
    else FieldText(fields[0]) + ", " + SelectList(fields[1..])
  }

  /** `any(f.startswith("co.") for f in fields)`: the consultant table must
      be joined. */
  predicate NeedsConsultorJoin(fields: seq<Field>)
  {
    exists i :: 0 <= i < |fields| && StartsWith(FieldText(fields[i]), "co.")
  }

  const ConsultorJoin: string := " " + "LEFT" + " JOIN public.\"CONSULTOR\" co ON co.idconsultor = c.idconsultor"

  function JoinFor(fields: seq<Field>): (r: string)
    ensures NeedsConsultorJoin(fields) ==> r == ConsultorJoin
    ensures !NeedsConsultorJoin(fields) ==> r == ""
  {
    if NeedsConsultorJoin(fields) then ConsultorJoin else ""
  }

  // ------------------------------------------------------------ fetching by batches

  /** The by-ID detail query over `CLIENTES`: the select list, the
      consultant join when a field needs it, `c.idcliente = ANY(%s)` and the
      origin whitelist, ordered by ID. */
  function IdsQueryText(fields: seq<Field>, origins: seq<string>): (ps: seq<Piece>)
    ensures Directives(ps) == Some([IdList])
  {
    OneSlot("SELECT " + SelectList(fields) + " FROM public.\"CLIENTES\" c" + JoinFor(fields) + " WHERE c.idcliente = ANY(",
            IdList, ") AND " + OriginCond(origins) + " ORDER BY c.idcliente;");
    [Lit("SELECT " + SelectList(fields) + " FROM public.\"CLIENTES\" c" + JoinFor(fields) + " WHERE c.idcliente = ANY("),
     Slot(IdList),
     Lit(") AND " + OriginCond(origins) + " ORDER BY c.idcliente;")]
  }

  lemma ByIdsBinds(pieces: seq<Piece>, batch: seq<int>)
    requires Directives(pieces) == Some([IdList])
    ensures Binds(ByIds(pieces, batch))
  {
    assert Roles([Param(IdList, Ids(batch))]) == [IdList];
  }

  /** A text with a single placeholder between two fixed parts. */
  lemma OneSlot(a: string, role: Role, b: string)
    ensures Directives([Lit(a), Slot(role), Lit(b)]) == Some([role])
  {
    var ps := [Lit(a), Slot(role), Lit(b)];
    var rest := [Slot(role), Lit(b)];
    var tail := [Lit(b)];
    assert tail[1..] == [];
    assert Directives(tail) == Some([]);
    assert rest[0] == Slot(role) && rest[1..] == tail;
    assert [role] + [] == [role];
    assert Directives(rest) == Some([role]);
    assert ps[0] == Lit(a) && ps[1..] == rest;
  }


  /** The query text of a by-ID fetch with the batch bound to its one
      placeholder. */
  function ByIds(pieces: seq<Piece>, batch: seq<int>): (q: Query)
  {
    Query(pieces, [Param(IdList, Ids(batch))])
  }

  /** The answers to each batch, concatenated in batch order. */
  function FetchAll(db: Query -> seq<Row>, pieces: seq<Piece>, batches: seq<seq<int>>): (rows: seq<Row>)
    decreases |batches|
  {
    if |batches| == 0 then [] else ExecuteQuery(db, ByIds(pieces, batches[0])) + FetchAll(db, pieces, batches[1..])
  }

  lemma FetchAllCons(db: Query -> seq<Row>, pieces: seq<Piece>, b: seq<int>, bs: seq<seq<int>>)
    ensures FetchAll(db, pieces, [b] + bs) == ExecuteQuery(db, ByIds(pieces, b)) + FetchAll(db, pieces, bs)
  {
    assert ([b] + bs)[1..] == bs;
  }

  /** The remaining IDs once the loop index has reached `i`. */
  function Remaining(ids: seq<int>, i: nat): (r: seq<int>)
  {
    if i < |ids| then ids[i..] else []
  }

  /** One turn of the batch loop: the rows still to come are the current
      batch's rows, then those of the batches after it. */
  lemma FetchStep(db: Query -> seq<Row>, pieces: seq<Piece>, ids: seq<int>, i: nat, size: nat)
    requires size > 0 && i < |ids|
    ensures FetchAll(db, pieces, Batches(Remaining(ids, i), size))
         == ExecuteQuery(db, ByIds(pieces, Slice(ids, i, size))) + FetchAll(db, pieces, Batches(Remaining(ids, i + size), size))
  {
    BatchesFrom(ids, i, size);
    var rest := if i + size < |ids| then Batches(ids[i + size..], size) else [];
    assert Batches(Remaining(ids, i + size), size) == rest;
    FetchAllCons(db, pieces, Slice(ids, i, size), rest);
  }

  /** The loop shared by every `get_*_details_by_ids`:
      `for i in range(0, len(ids), size): extend(execute_query(query, (ids[i:i + size],)))`.
      A zero step makes `range` raise ValueError, which the caller's
      `except` turns into `[]`; a negative step runs no iteration. */
  method FetchInBatches(db: Query -> seq<Row>, pieces: seq<Piece>, ids: seq<int>, size: int) returns (details: seq<Row>)
    ensures size > 0 ==> details == FetchAll(db, pieces, Batches(ids, size))
    ensures size <= 0 ==> details == []
  {
    details := [];
    if size == 0 {
      return [];
    }
    if size < 0 {
      return [];
    }
    var i: nat := 0;
    while i < |ids|
      invariant details + FetchAll(db, pieces, Batches(Remaining(ids, i), size)) == FetchAll(db, pieces, Batches(ids, size))
      decreases |ids| - i
    {
      var rows := ExecuteQuery(db, ByIds(pieces, Slice(ids, i, size)));
      FetchStep(db, pieces, ids, i, size);
      ghost var later := FetchAll(db, pieces, Batches(Remaining(ids, i + size), size));
      assert (details + rows) + later == details + (rows + later);
      details := details + rows;
      i := i + size;
    }
  }
}
