/**
 * The second evolution of the builder: a fluent chain in which a Condition
 * accepts one predicate and hands back its Logic handle, the Logic handle
 * accepts AND/OR (handing back the Condition) or ends the group, flushing it
 * into the owning Query's WHERE fragments and values. Pending left-bracket
 * wrappers prefix the next predicate; a right bracket closes the last one.
 * The Query also keeps the ORDER BY entries.
 */
module Fluent {
  import opened Sql

  const LogicAnd: string := "AND"
  const LogicOr: string := "OR"
  const OrderASC: string := "ASC"
  const OrderDesc: string := "DESC"

  /** A one-shot rewriting of a rendered predicate. */
  datatype Wrapper = LeftBracket | RightBracket

  function Apply(w: Wrapper, expr: string): (r: string)
    ensures Marks(r) == Marks(expr)
    ensures |r| == |expr| + 1
  {
    MarksConcat("(", expr);
    MarksConcat(expr, ")");
    match w
    case LeftBracket => "(" + expr
    case RightBracket => expr + ")"
  }

  /** The wrappers applied in the order they were registered, the last one
      outermost. Wrapping never adds or removes a placeholder. */
  function ApplyAll(ws: seq<Wrapper>, expr: string): (r: string)
    ensures Marks(r) == Marks(expr)
  {
    if ws == [] then expr else Apply(ws[|ws| - 1], ApplyAll(ws[..|ws| - 1], expr))
  }

  /** k opening brackets. */
  function Opening(k: nat): string
  {
    seq(k, _ => '(')
  }

  /** k pending left brackets prefix exactly k `(` to the expression. */
  lemma {:induction false} ApplyAllLeft(ws: seq<Wrapper>, expr: string)
    requires forall i :: 0 <= i < |ws| ==> ws[i] == LeftBracket
    ensures ApplyAll(ws, expr) == Opening(|ws|) + expr
  {
    if ws != [] {
      var n := |ws|;
      ApplyAllLeft(ws[..n - 1], expr);
      assert "(" + (Opening(n - 1) + expr) == Opening(n) + expr;
    }
  }

  /** The fragment a finished group contributes: its parts joined by single
      spaces, parenthesised for a grouped end. It carries exactly the
      placeholders of its parts. */
  function GroupExpr(exprs: seq<string>, group: bool): (r: string)
    ensures Marks(r) == MarksAll(exprs)
    ensures group ==> |r| >= 2 && r[0] == '(' && r[|r| - 1] == ')'
  {
    JoinMarks(exprs, " ");
    MarksWrapped("(", Join(exprs, " "), ")");
    var e := Join(exprs, " ");
    if group then "(" + e + ")" else e
  }

  /** Flushing an aligned group into an aligned query keeps the query
      aligned. */
  lemma FlushKeepsAlignment(whereExprs: seq<string>, whereVals: seq<Value>,
                            exprs: seq<string>, vals: seq<Value>, group: bool)
    requires MarksAll(whereExprs) == |whereVals| && MarksAll(exprs) == |vals|
    ensures MarksAll(whereExprs + [GroupExpr(exprs, group)]) == |whereVals + vals|
  {
    MarksAllSnoc(whereExprs, GroupExpr(exprs, group));
  }

  /** A predicate `column<rest>` rendered with one placeholder at its end. */
  lemma Predicate(column: Column, rest: string)
    requires |rest| > 0 && '?' !in rest[..|rest| - 1] && rest[|rest| - 1] == '?'
    ensures Marks(column + rest) == 1
  {
    assert column + rest == (column + rest[..|rest| - 1]) + "?" + "";
    OnePlaceholder(column + rest[..|rest| - 1], "");
  }

  class Query {
    var whereExprs: seq<string>
    var whereVals: seq<Value>
    var orders: seq<string>
    var limit: u64

    /** One value per placeholder across all WHERE fragments. */
    ghost predicate Aligned()
      reads this
    {
      MarksAll(whereExprs) == |whereVals|
    }

    /** The zero query. */
    constructor ()
      ensures whereExprs == [] && whereVals == [] && orders == [] && limit == 0
      ensures Aligned()
    {
      whereExprs, whereVals, orders, limit := [], [], [], 0;
    }

    method DESC(column: string) returns (q: Query)
      modifies this`orders
      ensures q == this
      ensures orders == old(orders) + [column + " " + OrderDesc]
      ensures Order() == if old(orders) == [] then column + " DESC"
                         else old(Order()) + ", " + column + " DESC"
    {
      JoinSnoc(orders, column + " " + OrderDesc, ", ");
      orders := orders + [column + " " + OrderDesc];
      q := this;
    }

    method ASC(column: string) returns (q: Query)
      modifies this`orders
      ensures q == this
      ensures orders == old(orders) + [column + " " + OrderASC]
      ensures Order() == if old(orders) == [] then column + " ASC"
                         else old(Order()) + ", " + column + " ASC"
    {
      JoinSnoc(orders, column + " " + OrderASC, ", ");
      orders := orders + [column + " " + OrderASC];
      q := this;
    }

    /** The ORDER BY list, entries separated by ", " in call order. */
    function Order(): (expr: string)
      reads this
      ensures orders == [] ==> expr == ""
      ensures |orders| == 1 ==> expr == orders[0]
    {
      Join(orders, ", ")
    }
  }

  /** A condition chain under construction, bound to one query. */
  class Condition {
    const query: Query
    const logic: Logic
    var onceWrappers: seq<Wrapper>
    var exprs: seq<string>
    var vals: seq<Value>

    /** The Logic handle points back at this condition. */
    ghost predicate Valid()
      reads this, logic
    {
      logic.cond == this
    }

    /** One value per placeholder across the group's fragments. */
    ghost predicate Aligned()
      reads this
    {
      MarksAll(exprs) == |vals|
    }

    /** The state after a predicate `expr` with value `val` was added to a
        condition that held `exprs0`, `vals0` and the wrappers `ws0`. */
    ghost predicate Pushed(exprs0: seq<string>, vals0: seq<Value>, ws0: seq<Wrapper>,
                           expr: string, val: Value, l: Logic)
      reads this, logic
    {
      && Valid() && l == logic
      && exprs == exprs0 + [ApplyAll(ws0, expr)]
      && vals == vals0 + [val]
      && onceWrappers == []
    }

    constructor (q: Query, l: Logic)
      ensures query == q && logic == l
      ensures onceWrappers == [] && exprs == [] && vals == []
      ensures Aligned()
    {
      query, logic := q, l;
      onceWrappers, exprs, vals := [], [], [];
    }

    method WithLeftBracket() returns (c: Condition)
      modifies this`onceWrappers
      ensures c == this
      ensures onceWrappers == old(onceWrappers) + [LeftBracket]
    {
      onceWrappers := onceWrappers + [LeftBracket];
      c := this;
    }

    /** Closes a bracket on the last fragment, if there is one; no value
        changes. */
    method withRightBracket() returns (c: Condition)
      modifies this`exprs
      ensures c == this
      ensures |exprs| == |old(exprs)|
      ensures old(exprs) == [] ==> exprs == []
      ensures old(exprs) != [] ==>
        exprs == old(exprs)[..|old(exprs)| - 1] + [Apply(RightBracket, old(exprs)[|old(exprs)| - 1])]
      ensures MarksAll(exprs) == old(MarksAll(exprs))
    {
      var l := |exprs|;
      if l != 0 {
        var e := Apply(RightBracket, exprs[l - 1]);
        assert exprs == exprs[..l - 1] + [exprs[l - 1]];
        MarksAllSnoc(exprs[..l - 1], exprs[l - 1]);
        MarksAllSnoc(exprs[..l - 1], e);
        exprs := exprs[l - 1 := e];
        assert exprs == old(exprs)[..l - 1] + [e];
      }
      c := this;
    }

    /** Applies and clears the pending wrappers, then appends the fragment
        and its value; returns this condition's Logic handle. */
    method add(expr: string, val: Value) returns (l: Logic)
      requires Valid()
      modifies this`exprs, this`vals, this`onceWrappers
      ensures Pushed(old(exprs), old(vals), old(onceWrappers), expr, val, l)
      ensures MarksAll(exprs) == old(MarksAll(exprs)) + Marks(expr)
    {
      var e := expr;
      for i := 0 to |onceWrappers|
        invariant e == ApplyAll(onceWrappers[..i], expr)
      {
        assert onceWrappers[..i + 1][..i] == onceWrappers[..i];
        e := Apply(onceWrappers[i], e);
      }
      assert onceWrappers[..|onceWrappers|] == onceWrappers;
      onceWrappers := [];
      MarksAllSnoc(exprs, e);
      exprs := exprs + [e];
      vals := vals + [val];
      l := logic;
    }

    method Eq(column: Column, val: Value) returns (l: Logic)
      requires Valid()
      modifies this`exprs, this`vals, this`onceWrappers
      ensures Pushed(old(exprs), old(vals), old(onceWrappers), column + " = ?", val, l)
      ensures old(Aligned()) ==> Aligned()
    {
      Predicate(column, " = ?");
      l := add(column + " = ?", val);
    }

    method NotEq(column: Column, val: Value) returns (l: Logic)
      requires Valid()
      modifies this`exprs, this`vals, this`onceWrappers
      ensures Pushed(old(exprs), old(vals), old(onceWrappers), column + " != ?", val, l)
      ensures old(Aligned()) ==> Aligned()
    {
      Predicate(column, " != ?");
      l := add(column + " != ?", val);
    }

    method Ge(column: Column, val: Value) returns (l: Logic)
      requires Valid()
      modifies this`exprs, this`vals, this`onceWrappers
      ensures Pushed(old(exprs), old(vals), old(onceWrappers), column + " >= ?", val, l)
      ensures old(Aligned()) ==> Aligned()
    {
      Predicate(column, " >= ?");
      l := add(column + " >= ?", val);
    }

    method Le(column: Column, val: Value) returns (l: Logic)
      requires Valid()
      modifies this`exprs, this`vals, this`onceWrappers
      ensures Pushed(old(exprs), old(vals), old(onceWrappers), column + " <= ?", val, l)
      ensures old(Aligned()) ==> Aligned()
    {
      Predicate(column, " <= ?");
      l := add(column + " <= ?", val);
    }

    method Gt(column: Column, val: Value) returns (l: Logic)
      requires Valid()
      modifies this`exprs, this`vals, this`onceWrappers
      ensures Pushed(old(exprs), old(vals), old(onceWrappers), column + " > ?", val, l)
      ensures old(Aligned()) ==> Aligned()
    {
      Predicate(column, " > ?");
      l := add(column + " > ?", val);
    }

    method Lt(column: Column, val: Value) returns (l: Logic)
      requires Valid()
      modifies this`exprs, this`vals, this`onceWrappers
      ensures Pushed(old(exprs), old(vals), old(onceWrappers), column + " < ?", val, l)
      ensures old(Aligned()) ==> Aligned()
    {
      Predicate(column, " < ?");
      l := add(column + " < ?", val);
    }

    method Contain(column: Column, val: string) returns (l: Logic)
      requires Valid()
      modifies this`exprs, this`vals, this`onceWrappers
      ensures Pushed(old(exprs), old(vals), old(onceWrappers), column + " LIKE ?", Text("%" + val + "%"), l)
      ensures old(Aligned()) ==> Aligned()
    {
      Predicate(column, " LIKE ?");
      l := add(column + " LIKE ?", Text("%" + val + "%"));
    }

    method Prefix(column: Column, val: string) returns (l: Logic)
      requires Valid()
      modifies this`exprs, this`vals, this`onceWrappers
      ensures Pushed(old(exprs), old(vals), old(onceWrappers), column + " LIKE ?", Text(val + "%"), l)
      ensures old(Aligned()) ==> Aligned()
    {
      Predicate(column, " LIKE ?");
      l := add(column + " LIKE ?", Text(val + "%"));
    }

    method Suffix(column: Column, val: string) returns (l: Logic)
      requires Valid()
      modifies this`exprs, this`vals, this`onceWrappers
      ensures Pushed(old(exprs), old(vals), old(onceWrappers), column + " LIKE ?", Text("%" + val), l)
      ensures old(Aligned()) ==> Aligned()
    {
      Predicate(column, " LIKE ?");
      l := add(column + " LIKE ?", Text("%" + val));
    }

    method In(column: Column, val: Value) returns (l: Logic)
      requires Valid()
      modifies this`exprs, this`vals, this`onceWrappers
      ensures Pushed(old(exprs), old(vals), old(onceWrappers), column + " IN (?)", val, l)
      ensures old(Aligned()) ==> Aligned()
    {
      assert column + " IN (?)" == (column + " IN (") + "?" + ")";
      OnePlaceholder(column + " IN (", ")");
      l := add(column + " IN (?)", val);
    }

    method NotIn(column: Column, val: Value) returns (l: Logic)
      requires Valid()
      modifies this`exprs, this`vals, this`onceWrappers
      ensures Pushed(old(exprs), old(vals), old(onceWrappers), column + " NOT IN (?)", val, l)
      ensures old(Aligned()) ==> Aligned()
    {
      assert column + " NOT IN (?)" == (column + " NOT IN (") + "?" + ")";
      OnePlaceholder(column + " NOT IN (", ")");
      l := add(column + " NOT IN (?)", val);
    }
  }

  /** The handle between two predicates. */
  class Logic {
    var cond: Condition?

    ghost predicate Valid()
      reads this, cond
    {
      cond != null && cond.logic == this
    }

    constructor ()
      ensures cond == null
    {
      cond := null;
    }

    method And() returns (c: Condition)
      requires Valid()
      modifies cond`exprs
      ensures c == cond && c.Valid()
      ensures c.exprs == old(c.exprs) + [LogicAnd]
      ensures old(c.Aligned()) ==> c.Aligned()
    {
      MarksAllSnoc(cond.exprs, LogicAnd);
      cond.exprs := cond.exprs + [LogicAnd];
      c := cond;
    }

    method Or() returns (c: Condition)
      requires Valid()
      modifies cond`exprs
      ensures c == cond && c.Valid()
      ensures c.exprs == old(c.exprs) + [LogicOr]
      ensures old(c.Aligned()) ==> c.Aligned()
    {
      MarksAllSnoc(cond.exprs, LogicOr);
      cond.exprs := cond.exprs + [LogicOr];
      c := cond;
    }

    method End() returns (q: Query)
      requires Valid()
      modifies cond.query`whereExprs, cond.query`whereVals
      ensures q == cond.query
      ensures cond.exprs == [] ==> q.whereExprs == old(q.whereExprs) && q.whereVals == old(q.whereVals)
      ensures cond.exprs != [] ==> q.whereExprs == old(q.whereExprs) + [Join(cond.exprs, " ")]
      ensures cond.exprs != [] ==> q.whereVals == old(q.whereVals) + cond.vals
      ensures cond.Aligned() && old(q.Aligned()) ==> q.Aligned()
    {
      q := end(false);
    }

    method EndWithGroup() returns (q: Query)
      requires Valid()
      modifies cond.query`whereExprs, cond.query`whereVals
      ensures q == cond.query
      ensures cond.exprs == [] ==> q.whereExprs == old(q.whereExprs) && q.whereVals == old(q.whereVals)
      ensures cond.exprs != [] ==> q.whereExprs == old(q.whereExprs) + ["(" + Join(cond.exprs, " ") + ")"]
      ensures cond.exprs != [] ==> q.whereVals == old(q.whereVals) + cond.vals
      ensures cond.Aligned() && old(q.Aligned()) ==> q.Aligned()
    {
      q := end(true);
    }

    method WithRightBracket() returns (l: Logic)
      requires Valid()
      modifies cond`exprs
      ensures l == this && Valid()
      ensures |cond.exprs| == |old(cond.exprs)|
      ensures old(cond.exprs) != [] ==>
        cond.exprs == old(cond.exprs)[..|old(cond.exprs)| - 1]
                      + [old(cond.exprs)[|old(cond.exprs)| - 1] + ")"]
      ensures old(cond.exprs) == [] ==> cond.exprs == []
      ensures old(cond.Aligned()) ==> cond.Aligned()
    {
      var _ := cond.withRightBracket();
      l := this;
    }

    /** Flushes the group into the owning query; a group without fragments
        leaves the query as it was. */
    method end(group: bool) returns (q: Query)
      requires Valid()
      modifies cond.query`whereExprs, cond.query`whereVals
      ensures q == cond.query
      ensures cond.exprs == [] ==> q.whereExprs == old(q.whereExprs) && q.whereVals == old(q.whereVals)
      ensures cond.exprs != [] ==> q.whereExprs == old(q.whereExprs) + [GroupExpr(cond.exprs, group)]
      ensures cond.exprs != [] ==> q.whereVals == old(q.whereVals) + cond.vals
      ensures cond.Aligned() && old(q.Aligned()) ==> q.Aligned()
    {
      q := cond.query;
      if |cond.exprs| == 0 {
        return;
      }
      var expr := Join(cond.exprs, " ");
      if group {
        expr := "(" + expr + ")";
      }
      if cond.Aligned() && q.Aligned() {
        FlushKeepsAlignment(q.whereExprs, q.whereVals, cond.exprs, cond.vals, group);
      }
      q.whereExprs := q.whereExprs + [expr];
      q.whereVals := q.whereVals + cond.vals;
    }
  }

  /** A fresh condition for `q`, linked both ways to a fresh Logic handle. */
  method NewCondition(q: Query) returns (c: Condition)
    ensures fresh(c) && fresh(c.logic)
    ensures c.query == q && c.Valid() && c.logic.Valid()
    ensures c.onceWrappers == [] && c.exprs == [] && c.vals == []
    ensures c.Aligned()
  {
    var logic := new Logic();
    c := new Condition(q, logic);
    logic.cond := c;
  }
}
