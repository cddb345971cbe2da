/** The parameterised queries the controllers assemble: a list of conditions,
    each naming a `$k` placeholder, and the parameter list the placeholders
    index. A handler keeps a running `paramCount`; a condition takes the
    current count as its placeholder and the value is pushed onto the
    parameters. The database engine itself is not modelled: a query is the
    pair of clauses and parameters. */
module Sql {
  import opened Wrappers
  import opened Text
  import opened Js

  /** A bound parameter as node-postgres receives it. */
  datatype Param =
    | PText(s: string)
    | PNum(n: real)
    | PInt(i: int)
    | PBool(b: bool)
    | PNull
    | PValue(v: Json)        // an array or object handed to the driver as is
    | PSerialized(v: Json)   // `JSON.stringify(v)`

  /** A JSON body value passed straight through as a parameter. */
  function ParamOf(v: Json): Param {
    match v
    case JNull => PNull
    case JBool(b) => PBool(b)
    case JNum(n) => PNum(n)
    case JStr(s) => PText(s)
    case _ => PValue(v)
  }

  /** A nullable text value: `null` when absent. */
  function TextParam(s: Option<string>): Param {
    if s.Some? then PText(s.value) else PNull
  }

  /** `column op $slot`; several columns sharing one placeholder are OR-ed. */
  datatype Cond = Cond(columns: seq<string>, op: string, slot: nat)

  /** The conditions and parameters built so far, and `paramCount`. */
  datatype Builder = Builder(conds: seq<Cond>, params: seq<Param>, count: nat)

  /** The counter is one past the last parameter and every placeholder names
      a parameter. */
  predicate Sound(b: Builder) {
    && b.count == |b.params| + 1
    && forall i :: 0 <= i < |b.conds| ==> 1 <= b.conds[i].slot <= |b.params|
  }

  const Empty := Builder([], [], 1)

  /** `conditions.push(`… $${paramCount++}`); params.push(v)`. */
  function Push(b: Builder, columns: seq<string>, op: string, v: Param): (r: Builder)
    requires Sound(b)
    ensures Sound(r)
    ensures r.conds == b.conds + [Cond(columns, op, b.count)] && r.params == b.params + [v]
    ensures r.params[r.conds[|b.conds|].slot - 1] == v
  {
    Builder(b.conds + [Cond(columns, op, b.count)], b.params + [v], b.count + 1)
  }

  /** An optional filter from the query string: applied only when truthy. */
  datatype Filter = Filter(column: string, op: string, value: Option<string>)

  function Present(fs: seq<Filter>): (r: seq<Filter>)
    ensures |r| <= |fs|
  {
    if fs == [] then []
    else if GivenText(fs[0].value) then [fs[0]] + Present(fs[1..])
    else Present(fs[1..])
  }

  /** Only truthy filters are applied, and none of them is dropped. */
  lemma {:induction false} PresentMembers(fs: seq<Filter>)
    ensures forall f :: f in Present(fs) <==> f in fs && GivenText(f.value)
    decreases |fs|
  {
    if fs != [] {
      PresentMembers(fs[1..]);
      assert fs == [fs[0]] + fs[1..];
    }
  }

  /** No filter is applied exactly when none is truthy. */
  lemma {:induction false} NoneApplied(fs: seq<Filter>)
    ensures Present(fs) == [] <==> forall k :: 0 <= k < |fs| ==> !GivenText(fs[k].value)
    decreases |fs|
  {
    if fs != [] {
      NoneApplied(fs[1..]);
      assert forall k :: 1 <= k < |fs| ==> fs[k] == fs[1..][k - 1];
    }
  }

  /** The conditions a run of applied filters contributes, numbered from `first`. */
  function CondsFor(fs: seq<Filter>, first: nat): (r: seq<Cond>)
    ensures |r| == |fs|
  {
    if fs == [] then [] else [Cond([fs[0].column], fs[0].op, first)] + CondsFor(fs[1..], first + 1)
  }

  /** The values a run of applied filters pushes. */
  function ValuesFor(fs: seq<Filter>): (r: seq<Param>)
    ensures |r| == |fs|
  {
    if fs == [] then [] else [TextParam(fs[0].value)] + ValuesFor(fs[1..])
  }

  /** The `if (x) { conditions.push(…); params.push(x) }` blocks, in order:
      each applied filter takes the next placeholder and pushes its value
      there, so the k-th applied filter's placeholder is its value's position. */
  function AddFilters(b: Builder, fs: seq<Filter>): (r: Builder)
    requires Sound(b)
    ensures Sound(r)
    ensures r.conds == b.conds + CondsFor(Present(fs), b.count)
    ensures r.params == b.params + ValuesFor(Present(fs))
    decreases |fs|
  {
    if fs == [] then b
    else if GivenText(fs[0].value) then
      var b' := Push(b, [fs[0].column], fs[0].op, TextParam(fs[0].value));
      var r := AddFilters(b', fs[1..]);
      var c := Cond([fs[0].column], fs[0].op, b.count);
      var rest := Present(fs[1..]);
      assert Present(fs) == [fs[0]] + rest;
      assert r.conds == b.conds + CondsFor(Present(fs), b.count) by {
        ConsFilter(fs[0], rest, b.count);
        assert b.conds + [c] + CondsFor(rest, b.count + 1) == b.conds + ([c] + CondsFor(rest, b.count + 1));
      }
      assert r.params == b.params + ValuesFor(Present(fs)) by {
        ConsFilter(fs[0], rest, b.count);
        assert b.params + [TextParam(fs[0].value)] + ValuesFor(rest) == b.params + ([TextParam(fs[0].value)] + ValuesFor(rest));
      }
      r
    else
      assert Present(fs) == Present(fs[1..]);
      AddFilters(b, fs[1..])
  }

  lemma ConsFilter(f: Filter, rest: seq<Filter>, first: nat)
    ensures CondsFor([f] + rest, first) == [Cond([f.column], f.op, first)] + CondsFor(rest, first + 1)
    ensures ValuesFor([f] + rest) == [TextParam(f.value)] + ValuesFor(rest)
  {
    assert ([f] + rest)[1..] == rest;
  }

  lemma {:induction false} CondsForAt(fs: seq<Filter>, first: nat, k: nat)
    requires k < |fs|
    ensures CondsFor(fs, first)[k] == Cond([fs[k].column], fs[k].op, first + k)
    decreases k
  {
    if k > 0 {
      CondsForAt(fs[1..], first + 1, k - 1);
    }
  }

  lemma {:induction false} ValuesForAt(fs: seq<Filter>, k: nat)
    requires k < |fs|
    ensures ValuesFor(fs)[k] == TextParam(fs[k].value)
    decreases k
  {
    if k > 0 {
      ValuesForAt(fs[1..], k - 1);
    }
  }

  /** The k-th applied filter's placeholder names that filter's value. */
  lemma FilterPlaceholders(b: Builder, fs: seq<Filter>, k: nat)
    requires Sound(b) && k < |Present(fs)|
    ensures var r := AddFilters(b, fs);
      && r.conds[|b.conds| + k] == Cond([Present(fs)[k].column], Present(fs)[k].op, |b.params| + k + 1)
      && r.params[r.conds[|b.conds| + k].slot - 1] == TextParam(Present(fs)[k].value)
  {
    CondsForAt(Present(fs), b.count, k);
    ValuesForAt(Present(fs), k);
  }

  // ---------------------------------------------------------------------------
  // Paging and ordering.

  /** `(parseInt(page) - 1) * parseInt(limit)` with the query-string defaults. */
  datatype Page = Page(limit: int, offset: int)

  function Paging(page: Option<int>, limit: Option<int>, defaultLimit: int): (p: Page)
    ensures p.limit == limit.GetOr(defaultLimit)
    ensures p.offset == (page.GetOr(1) - 1) * p.limit
    ensures page.None? ==> p.offset == 0
  {
    var l := limit.GetOr(defaultLimit);
    Page(l, (page.GetOr(1) - 1) * l)
  }

  datatype Dir = Asc | Desc

  /** A SELECT with its WHERE conditions, ORDER BY keys, and LIMIT/OFFSET
      placeholders (absent for an unpaged query). */
  datatype Query = Query(conds: seq<Cond>, params: seq<Param>, order: seq<(string, Dir)>,
                         limitSlot: Option<nat>, offsetSlot: Option<nat>)

  /** `LIMIT $${paramCount++} OFFSET $${paramCount++}` with `[...params, limit, offset]`. */
  function Paged(b: Builder, pg: Page, order: seq<(string, Dir)>): (q: Query)
    requires Sound(b)
    ensures q.conds == b.conds && q.order == order
    ensures q.params == b.params + [PInt(pg.limit), PInt(pg.offset)]
    ensures q.limitSlot == Some(|b.params| + 1) && q.offsetSlot == Some(|b.params| + 2)
    ensures q.params[q.limitSlot.value - 1] == PInt(pg.limit) && q.params[q.offsetSlot.value - 1] == PInt(pg.offset)
  {
    Query(b.conds, b.params + [PInt(pg.limit), PInt(pg.offset)], order, Some(b.count), Some(b.count + 1))
  }

  function Unpaged(b: Builder, order: seq<(string, Dir)>): (q: Query)
    ensures q.conds == b.conds && q.params == b.params && q.order == order
    ensures q.limitSlot.None? && q.offsetSlot.None?
  {
    Query(b.conds, b.params, order, None, None)
  }

  /** The placeholder numbers a query mentions. */
  function Slots(q: Query): set<nat> {
    (set i | 0 <= i < |q.conds| :: q.conds[i].slot)
    + (if q.limitSlot.Some? then {q.limitSlot.value} else {})
    + (if q.offsetSlot.Some? then {q.offsetSlot.value} else {})
  }

  /** PostgreSQL accepts a statement only when its placeholders are exactly
      `$1 … $n` for the n parameters supplied. */
  predicate Executable(q: Query) {
    && (forall k :: k in Slots(q) ==> 1 <= k <= |q.params|)
    && (forall k :: 1 <= k <= |q.params| ==> k in Slots(q))
  }

  /** Some condition uses placeholder `$k`. */
  predicate Uses(conds: seq<Cond>, k: nat) {
    exists i :: 0 <= i < |conds| && conds[i].slot == k
  }

  /** Every parameter is referenced by a condition. */
  predicate CoversParams(b: Builder) {
    forall k :: 1 <= k <= |b.params| ==> Uses(b.conds, k)
  }

  /** Every query built from a sound builder whose conditions use every
      parameter is executable once paged. */
  lemma PagedIsExecutable(b: Builder, pg: Page, order: seq<(string, Dir)>)
    requires Sound(b) && CoversParams(b)
    ensures Executable(Paged(b, pg, order))
  {
    var q := Paged(b, pg, order);
    forall k | 1 <= k <= |q.params|
      ensures k in Slots(q)
    {
      if k <= |b.params| {
        assert Uses(b.conds, k);
        var i :| 0 <= i < |b.conds| && b.conds[i].slot == k;
        assert q.conds[i].slot == k;
      }
    }
  }

  /** The same conditions without a page are executable on their own
      parameters: what a handler's total-count query needs. */
  lemma UnpagedIsExecutable(b: Builder, order: seq<(string, Dir)>)
    requires Sound(b) && CoversParams(b)
    ensures Executable(Unpaged(b, order))
  {
    var q := Unpaged(b, order);
    forall k | 1 <= k <= |q.params|
      ensures k in Slots(q)
    {
      assert Uses(b.conds, k);
      var i :| 0 <= i < |b.conds| && b.conds[i].slot == k;
      assert q.conds[i].slot == k;
    }
  }

  /** Filters numbered from a builder whose conditions cover its parameters
      leave every parameter referenced. */
  lemma FiltersCoverParams(b: Builder, fs: seq<Filter>)
    requires Sound(b) && CoversParams(b)
    ensures CoversParams(AddFilters(b, fs))
  {
    var r := AddFilters(b, fs);
    forall k | 1 <= k <= |r.params|
      ensures Uses(r.conds, k)
    {
      if k <= |b.params| {
        assert Uses(b.conds, k);
        var i :| 0 <= i < |b.conds| && b.conds[i].slot == k;
        assert r.conds[..|b.conds|][i] == r.conds[i];
      } else {
        var j := k - |b.params| - 1;
        FilterPlaceholders(b, fs, j);
        assert r.conds[|b.conds| + j].slot == k;
      }
    }
  }

  /** The applied filters occupy conditions `fromCond…` and parameters
      `fromParam…` in order, and each condition's placeholder is the position
      of its own filter's value. */
  predicate Numbered(q: Query, fromCond: nat, fromParam: nat, fs: seq<Filter>) {
    && fromCond + |Present(fs)| <= |q.conds| && fromParam + |Present(fs)| <= |q.params|
    && forall k :: 0 <= k < |Present(fs)| ==>
         && GivenText(Present(fs)[k].value)
         && q.conds[fromCond + k] == Cond([Present(fs)[k].column], Present(fs)[k].op, fromParam + k + 1)
         && q.params[q.conds[fromCond + k].slot - 1] == TextParam(Present(fs)[k].value)
  }

  /** Filters keep their numbering once the page pair is appended. */
  lemma PagedKeepsNumbering(b: Builder, fs: seq<Filter>, pg: Page, order: seq<(string, Dir)>)
    requires Sound(b)
    ensures Numbered(Paged(AddFilters(b, fs), pg, order), |b.conds|, |b.params|, fs)
  {
    var r := AddFilters(b, fs);
    var q := Paged(r, pg, order);
    PresentMembers(fs);
    forall k | 0 <= k < |Present(fs)|
      ensures && GivenText(Present(fs)[k].value)
              && q.conds[|b.conds| + k] == Cond([Present(fs)[k].column], Present(fs)[k].op, |b.params| + k + 1)
              && q.params[q.conds[|b.conds| + k].slot - 1] == TextParam(Present(fs)[k].value)
    {
      FilterPlaceholders(b, fs, k);
      assert Present(fs)[k] in Present(fs);
      assert q.params[|b.params| + k] == r.params[|b.params| + k];
    }
  }

  /** The page pair follows the filters' values. */
  lemma PageFollowsFilters(b: Builder, fs: seq<Filter>, pg: Page, order: seq<(string, Dir)>)
    requires Sound(b)
    ensures var q := Paged(AddFilters(b, fs), pg, order);
      && |q.params| == |b.params| + |Present(fs)| + 2
      && q.limitSlot == Some(|b.params| + |Present(fs)| + 1)
      && q.offsetSlot == Some(|b.params| + |Present(fs)| + 2)
  {
  }

  /** Filters after parameters the conditions already use give a statement
      PostgreSQL accepts once paged. */
  lemma FilteredPageExecutable(b: Builder, fs: seq<Filter>, pg: Page, order: seq<(string, Dir)>)
    requires Sound(b) && CoversParams(b)
    ensures Executable(Paged(AddFilters(b, fs), pg, order))
  {
    FiltersCoverParams(b, fs);
    PagedIsExecutable(AddFilters(b, fs), pg, order);
  }

  // ---------------------------------------------------------------------------
  // Rendering.

  function Placeholder(k: nat): string { "$" + NatToString(k) }

  /** Distinct parameter positions never share placeholder text. */
  lemma PlaceholderNamesOneSlot(j: nat, k: nat)
    ensures Placeholder(j) == Placeholder(k) <==> j == k
  {
    if Placeholder(j) == Placeholder(k) {
      assert NatToString(j) == Placeholder(j)[1..] && NatToString(k) == Placeholder(k)[1..];
      NatToStringInjective(j, k);
    }
  }

  function RenderColumns(columns: seq<string>, op: string, slot: nat): seq<string> {
    if columns == [] then [] else [columns[0] + " " + op + " " + Placeholder(slot)] + RenderColumns(columns[1..], op, slot)
  }

  function RenderCond(c: Cond): string {
    if |c.columns| == 1 then RenderColumns(c.columns, c.op, c.slot)[0]
    else "(" + Join(" OR ", RenderColumns(c.columns, c.op, c.slot)) + ")"
  }

  function RenderConds(conds: seq<Cond>): (r: seq<string>)
    ensures |r| == |conds|
  {
    if conds == [] then [] else [RenderCond(conds[0])] + RenderConds(conds[1..])
  }

  /** `conditions.length > 0 ? `WHERE ${conditions.join(' AND ')}` : ''`. */
  function WhereClause(conds: seq<Cond>): (w: string)
    ensures w == "" <==> conds == []
    ensures conds != [] ==> StartsWith(w, "WHERE ")
  {
    if conds == [] then ""
    else
      var w := "WHERE " + Join(" AND ", RenderConds(conds));
      assert w[..6] == "WHERE ";
      w
  }
}
