/**
 * Concrete chains on the fluent builder and the WHERE fragments, values and
 * ORDER BY list they leave in the query. Each chain is built in stages, one
 * builder call per stage.
 */
module FluentScenarios {
  import opened Sql
  import opened Fluent

  /** Three parts joined by single spaces. */
  lemma Joined3(a: string, b: string, c: string)
    ensures Join([a, b, c], " ") == a + " " + b + " " + c
  {
    assert [a, b, c][..2] == [a, b];
    assert [a, b][..1] == [a];
    assert Join([a], " ") == a;
    assert Join([a, b], " ") == a + " " + b;
  }

  /** Appending one element to a one-element list. */
  lemma Appended1<T>(a: T, b: T)
    ensures [a] + [b] == [a, b]
  {
  }

  /** A predicate spelled as its column and operator text, as the first
      fragment of a condition, is the rendered fragment. */
  lemma Pushed1(column: string, op: string, expr: string)
    requires column + op == expr
    ensures [] + [column + op] == [expr]
  {
  }

  /** The same predicate pushed after two fragments. */
  lemma Pushed3(e0: string, e1: string, column: string, op: string, expr: string)
    requires column + op == expr
    ensures [e0, e1] + [column + op] == [e0, e1, expr]
  {
  }

  /** The predicates of the chains below, spelled out. */
  lemma Spellings()
    ensures "name" + " = ?" == "name = ?"
    ensures "age" + " > ?" == "age > ?"
    ensures "b" + " = ?" == "b = ?"
    ensures "addr" + " LIKE ?" == "addr LIKE ?"
    ensures "name" + " LIKE ?" == "name LIKE ?"
    ensures "id" + " IN (?)" == "id IN (?)"
    ensures "age" + " NOT IN (?)" == "age NOT IN (?)"
  {
  }

  /** A fresh condition on a fresh, empty query. */
  method Start() returns (c: Condition)
    ensures fresh(c) && fresh(c.logic) && fresh(c.query)
    ensures c.Valid() && c.logic.Valid()
    ensures c.onceWrappers == [] && c.exprs == [] && c.vals == []
    ensures c.query.whereExprs == [] && c.query.whereVals == [] && c.query.orders == []
  {
    var q := new Query();
    c := NewCondition(q);
  }

  /** `Eq("name", "Tom")` on a fresh condition. */
  method NameIsTom() returns (c: Condition)
    ensures fresh(c) && fresh(c.logic) && fresh(c.query)
    ensures c.Valid() && c.logic.Valid() && c.onceWrappers == []
    ensures c.exprs == ["name = ?"] && c.vals == [Text("Tom")]
    ensures c.query.whereExprs == [] && c.query.whereVals == []
  {
    Spellings();
    Pushed1("name", " = ?", "name = ?");
    c := Start();
    var l := c.Eq("name", Text("Tom"));
    assert c.exprs == [] + ["name" + " = ?"];
  }

  /** `Eq("name", "Tom").End()`: one fragment, one value. */
  method SingleEq() returns (exprs: seq<string>, vals: seq<Value>)
    ensures exprs == ["name = ?"] && vals == [Text("Tom")]
  {
    assert Join(["name = ?"], " ") == "name = ?";
    var c := NameIsTom();
    var q := c.logic.End();
    exprs, vals := q.whereExprs, q.whereVals;
  }

  /** Ending a condition that received no predicate leaves the query as it
      was. */
  method EmptyEnd() returns (exprs: seq<string>, vals: seq<Value>)
    ensures exprs == [] && vals == []
  {
    var c := Start();
    var q := c.logic.End();
    exprs, vals := q.whereExprs, q.whereVals;
  }

  /** `Eq("name", "Tom").And()`. */
  method TomAnd() returns (c: Condition)
    ensures fresh(c) && fresh(c.logic) && fresh(c.query)
    ensures c.Valid() && c.logic.Valid() && c.onceWrappers == []
    ensures c.exprs == ["name = ?", "AND"] && c.vals == [Text("Tom")]
    ensures c.query.whereExprs == [] && c.query.whereVals == []
  {
    Appended1("name = ?", "AND");
    c := NameIsTom();
    c := c.logic.And();
  }

  /** `Eq("name", "Tom").And().Gt("age", 10)`. */
  method TomAndOlder() returns (c: Condition)
    ensures fresh(c) && fresh(c.logic) && fresh(c.query)
    ensures c.Valid() && c.logic.Valid() && c.onceWrappers == []
    ensures c.exprs == ["name = ?", "AND", "age > ?"] && c.vals == [Text("Tom"), Number(10)]
    ensures c.query.whereExprs == [] && c.query.whereVals == []
  {
    Spellings();
    Pushed3("name = ?", "AND", "age", " > ?", "age > ?");
    c := TomAnd();
    var l := c.Gt("age", Number(10));
    assert c.exprs == ["name = ?", "AND"] + ["age" + " > ?"];
  }

  lemma AndChainRendering()
    ensures Join(["name = ?", "AND", "age > ?"], " ") == "name = ? AND age > ?"
  {
    Joined3("name = ?", "AND", "age > ?");
  }

  /** `Eq("name", "Tom").And().Gt("age", 10).End()`: the group's parts are
      joined by single spaces into one fragment. */
  method AndChain() returns (exprs: seq<string>, vals: seq<Value>)
    ensures exprs == ["name = ? AND age > ?"] && vals == [Text("Tom"), Number(10)]
  {
    AndChainRendering();
    var c := TomAndOlder();
    var q := c.logic.End();
    exprs, vals := q.whereExprs, q.whereVals;
  }

  /** `WithLeftBracket()` on a fresh condition. */
  method Open() returns (c: Condition)
    ensures fresh(c) && fresh(c.logic) && fresh(c.query)
    ensures c.Valid() && c.logic.Valid() && c.onceWrappers == [LeftBracket]
    ensures c.exprs == [] && c.vals == []
    ensures c.query.whereExprs == [] && c.query.whereVals == []
  {
    c := Start();
    c := c.WithLeftBracket();
  }

  /** `WithLeftBracket().Eq("a", 1)`: the pending bracket prefixes the
      predicate and is then dropped. */
  method OpenA() returns (c: Condition)
    ensures fresh(c) && fresh(c.logic) && fresh(c.query)
    ensures c.Valid() && c.logic.Valid() && c.onceWrappers == []
    ensures c.exprs == ["(a = ?"] && c.vals == [Number(1)]
    ensures c.query.whereExprs == [] && c.query.whereVals == []
  {
    assert [LeftBracket][..0] == [];
    assert ApplyAll([LeftBracket], "a" + " = ?") == "(a = ?";
    c := Open();
    var l := c.Eq("a", Number(1));
  }

  /** `...Or()`. */
  method OpenAOr() returns (c: Condition)
    ensures fresh(c) && fresh(c.logic) && fresh(c.query)
    ensures c.Valid() && c.logic.Valid() && c.onceWrappers == []
    ensures c.exprs == ["(a = ?", "OR"] && c.vals == [Number(1)]
    ensures c.query.whereExprs == [] && c.query.whereVals == []
  {
    Appended1("(a = ?", "OR");
    c := OpenA();
    c := c.logic.Or();
  }

  /** `...Eq("b", 2)`: no bracket is pending any more. */
  method OpenAOrB() returns (c: Condition)
    ensures fresh(c) && fresh(c.logic) && fresh(c.query)
    ensures c.Valid() && c.logic.Valid() && c.onceWrappers == []
    ensures c.exprs == ["(a = ?", "OR", "b = ?"] && c.vals == [Number(1), Number(2)]
    ensures c.query.whereExprs == [] && c.query.whereVals == []
  {
    Spellings();
    Pushed3("(a = ?", "OR", "b", " = ?", "b = ?");
    c := OpenAOr();
    var l := c.Eq("b", Number(2));
    assert c.exprs == ["(a = ?", "OR"] + ["b" + " = ?"];
  }

  /** `...WithRightBracket()`: the bracket closes on the last fragment. */
  method CloseB() returns (c: Condition)
    ensures fresh(c) && fresh(c.logic) && fresh(c.query)
    ensures c.Valid() && c.logic.Valid() && c.onceWrappers == []
    ensures c.exprs == ["(a = ?", "OR", "b = ?)"] && c.vals == [Number(1), Number(2)]
    ensures c.query.whereExprs == [] && c.query.whereVals == []
  {
    assert "b = ?" + ")" == "b = ?)";
    assert ["(a = ?", "OR", "b = ?"][..2] == ["(a = ?", "OR"];
    assert ["(a = ?", "OR"] + ["b = ?)"] == ["(a = ?", "OR", "b = ?)"];
    c := OpenAOrB();
    var l := c.logic.WithRightBracket();
  }

  lemma BracketsRendering()
    ensures Join(["(a = ?", "OR", "b = ?)"], " ") == "(a = ? OR b = ?)"
  {
    Joined3("(a = ?", "OR", "b = ?)");
  }

  /** `WithLeftBracket().Eq("a", 1).Or().Eq("b", 2).WithRightBracket().End()`. */
  method Brackets() returns (exprs: seq<string>, vals: seq<Value>)
    ensures exprs == ["(a = ? OR b = ?)"] && vals == [Number(1), Number(2)]
  {
    BracketsRendering();
    var c := CloseB();
    var q := c.logic.End();
    exprs, vals := q.whereExprs, q.whereVals;
  }

  /** `Eq("name", "Tom").EndWithGroup()`: the group is parenthesised. */
  method GroupedTom() returns (q: Query)
    ensures fresh(q)
    ensures q.whereExprs == ["(name = ?)"] && q.whereVals == [Text("Tom")]
  {
    assert "(" + Join(["name = ?"], " ") + ")" == "(name = ?)";
    var c := NameIsTom();
    q := c.logic.EndWithGroup();
  }

  /** A second condition on the grouped query, holding `Contain("addr", "x")`. */
  method SecondGroup() returns (c: Condition)
    ensures fresh(c) && fresh(c.logic) && fresh(c.query)
    ensures c.Valid() && c.logic.Valid() && c.onceWrappers == []
    ensures c.exprs == ["addr LIKE ?"] && c.vals == [Text("%x%")]
    ensures c.query.whereExprs == ["(name = ?)"] && c.query.whereVals == [Text("Tom")]
  {
    Spellings();
    Pushed1("addr", " LIKE ?", "addr LIKE ?");
    assert "%" + "x" + "%" == "%x%";
    var q := GroupedTom();
    c := NewCondition(q);
    var l := c.Contain("addr", "x");
    assert c.exprs == [] + ["addr" + " LIKE ?"];
  }

  lemma TwoGroupsRendering()
    ensures "(" + Join(["addr LIKE ?"], " ") + ")" == "(addr LIKE ?)"
    ensures ["(name = ?)"] + ["(addr LIKE ?)"] == ["(name = ?)", "(addr LIKE ?)"]
    ensures [Text("Tom")] + [Text("%x%")] == [Text("Tom"), Text("%x%")]
  {
  }

  /** A second grouped condition on the same query appends its own fragment
      and values after the first. */
  method TwoGroups() returns (exprs: seq<string>, vals: seq<Value>)
    ensures exprs == ["(name = ?)", "(addr LIKE ?)"]
    ensures vals == [Text("Tom"), Text("%x%")]
  {
    TwoGroupsRendering();
    var c := SecondGroup();
    var q := c.logic.EndWithGroup();
    exprs, vals := q.whereExprs, q.whereVals;
  }

  /** `Prefix("name", "T")`. */
  method PrefixT() returns (c: Condition)
    ensures fresh(c) && fresh(c.logic) && fresh(c.query)
    ensures c.Valid() && c.logic.Valid() && c.onceWrappers == []
    ensures c.exprs == ["name LIKE ?"] && c.vals == [Text("T%")]
    ensures c.query.whereExprs == [] && c.query.whereVals == []
  {
    Spellings();
    Pushed1("name", " LIKE ?", "name LIKE ?");
    assert "T" + "%" == "T%";
    c := Start();
    var l := c.Prefix("name", "T");
    assert c.exprs == [] + ["name" + " LIKE ?"];
  }

  /** The prefix operator puts the `%` wildcard after the value, not in the
      template: `Prefix("name", "T").End()`. */
  method PrefixChain() returns (exprs: seq<string>, vals: seq<Value>)
    ensures exprs == ["name LIKE ?"] && vals == [Text("T%")]
  {
    assert Join(["name LIKE ?"], " ") == "name LIKE ?";
    var c := PrefixT();
    var q := c.logic.End();
    exprs, vals := q.whereExprs, q.whereVals;
  }

  /** `Suffix("name", "m")`. */
  method SuffixM() returns (c: Condition)
    ensures fresh(c) && fresh(c.logic) && fresh(c.query)
    ensures c.Valid() && c.logic.Valid() && c.onceWrappers == []
    ensures c.exprs == ["name LIKE ?"] && c.vals == [Text("%m")]
    ensures c.query.whereExprs == [] && c.query.whereVals == []
  {
    Spellings();
    Pushed1("name", " LIKE ?", "name LIKE ?");
    assert "%" + "m" == "%m";
    c := Start();
    var l := c.Suffix("name", "m");
    assert c.exprs == [] + ["name" + " LIKE ?"];
  }

  /** The suffix operator puts the `%` wildcard before the value:
      `Suffix("name", "m").End()`. */
  method SuffixChain() returns (exprs: seq<string>, vals: seq<Value>)
    ensures exprs == ["name LIKE ?"] && vals == [Text("%m")]
  {
    assert Join(["name LIKE ?"], " ") == "name LIKE ?";
    var c := SuffixM();
    var q := c.logic.End();
    exprs, vals := q.whereExprs, q.whereVals;
  }

  /** `In("id", ids)`. */
  method IdIn(ids: Value) returns (c: Condition)
    ensures fresh(c) && fresh(c.logic) && fresh(c.query)
    ensures c.Valid() && c.logic.Valid() && c.onceWrappers == []
    ensures c.exprs == ["id IN (?)"] && c.vals == [ids]
    ensures c.query.whereExprs == [] && c.query.whereVals == []
  {
    Spellings();
    Pushed1("id", " IN (?)", "id IN (?)");
    c := Start();
    var l := c.In("id", ids);
    assert c.exprs == [] + ["id" + " IN (?)"];
  }

  /** `In("id", ids).And()`. */
  method IdInAnd(ids: Value) returns (c: Condition)
    ensures fresh(c) && fresh(c.logic) && fresh(c.query)
    ensures c.Valid() && c.logic.Valid() && c.onceWrappers == []
    ensures c.exprs == ["id IN (?)", "AND"] && c.vals == [ids]
    ensures c.query.whereExprs == [] && c.query.whereVals == []
  {
    Appended1("id IN (?)", "AND");
    c := IdIn(ids);
    c := c.logic.And();
  }

  /** `In("id", ids).And().NotIn("age", ages)`. */
  method Memberships(ids: Value, ages: Value) returns (c: Condition)
    ensures fresh(c) && fresh(c.logic) && fresh(c.query)
    ensures c.Valid() && c.logic.Valid() && c.onceWrappers == []
    ensures c.exprs == ["id IN (?)", "AND", "age NOT IN (?)"] && c.vals == [ids, ages]
    ensures c.query.whereExprs == [] && c.query.whereVals == []
  {
    Spellings();
    Pushed3("id IN (?)", "AND", "age", " NOT IN (?)", "age NOT IN (?)");
    c := IdInAnd(ids);
    var l := c.NotIn("age", ages);
    assert c.exprs == ["id IN (?)", "AND"] + ["age" + " NOT IN (?)"];
  }

  lemma MembershipRendering()
    ensures Join(["id IN (?)", "AND", "age NOT IN (?)"], " ") == "id IN (?) AND age NOT IN (?)"
  {
    Joined3("id IN (?)", "AND", "age NOT IN (?)");
  }

  /** Whatever the bound collections are, each binds to the single
      placeholder of its `IN (?)`, in call order. */
  method MembershipChain(ids: Value, ages: Value) returns (exprs: seq<string>, vals: seq<Value>)
    ensures exprs == ["id IN (?) AND age NOT IN (?)"] && vals == [ids, ages]
  {
    MembershipRendering();
    var c := Memberships(ids, ages);
    var q := c.logic.End();
    exprs, vals := q.whereExprs, q.whereVals;
  }

  /** `ASC("id").DESC("name")`: entries in call order. */
  method Orders() returns (order: string)
    ensures order == "id ASC, name DESC"
  {
    var q := new Query();
    q := q.ASC("id");
    q := q.DESC("name");
    order := q.Order();
  }
}
