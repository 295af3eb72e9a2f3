/**
 * Concrete call sequences on the legacy builder and the exact strings and
 * values they produce.
 */
module LegacyScenarios {
  import opened Sql
  import opened Legacy

  method ConcatColumns() returns (one: string, two: string)
    ensures one == "concat_ws('|', name)"
    ensures two == "concat_ws('|', name, addr)"
  {
    one := ConcatCol("|", ["name"]);
    two := ConcatCol("|", ["name", "addr"]);
    assert ["name", "addr"][..1] == ["name"];
  }

  method OrderInCallOrder() returns (one: string, two: string)
    ensures one == "id DESC"
    ensures two == "id DESC, name ASC"
  {
    var q := new Query();
    q := q.AddOrder("id", OrderDesc);
    one := q.Order();
    q := new Query();
    q := q.AddOrder("id", OrderDesc);
    q := q.AddOrder("name", OrderASC);
    two := q.Order();
  }

  /** Any method other than ASC sorts descending. */
  method UnknownOrderIsDescending() returns (order: string)
    ensures order == "id DESC"
  {
    var q := new Query();
    q := q.AddOrder("id", "down");
    order := q.Order();
  }

  method EmptyWhere() returns (expr: string, vals: seq<Value>)
    ensures expr == "" && vals == []
  {
    var q := new Query();
    var w := q.Where();
    expr, vals := w.0, w.1;
  }

  method SingleCondition() returns (expr: string, vals: seq<Value>)
    ensures expr == "id = ?" && vals == [Number(1)]
  {
    assert Render("id", OpEq, Number(1)).expr == "id = ?";
    var q := new Query();
    q := q.AddCondition("id", OpEq, Number(1), LogicAnd);
    var w := q.Where();
    expr, vals := w.0, w.1;
  }

  /** `name = Tom`, followed by AND. */
  method NameIsTom() returns (q: Query)
    ensures fresh(q) && q.Valid()
    ensures q.condCols == ["name = ?", "AND"] && q.condVals == [Text("Tom")]
  {
    assert Render("name", OpEq, Text("Tom")) == Rendered("name = ?", Text("Tom"));
    q := new Query();
    q := q.AddCondition("name", OpEq, Text("Tom"), LogicAnd);
  }

  lemma TwoConditionsText()
    ensures "name = ?" + " " + "AND" + " " + "age <= ?" == "name = ? AND age <= ?"
  {
  }

  method TwoConditions() returns (expr: string, vals: seq<Value>)
    ensures expr == "name = ? AND age <= ?" && vals == [Text("Tom"), Number(20)]
  {
    assert Render("age", OpLe, Number(20)) == Rendered("age <= ?", Number(20));
    TwoConditionsText();
    var q := NameIsTom();
    q := q.AddCondition("age", OpLe, Number(20), LogicAnd);
    var w := q.Where();
    expr, vals := w.0, w.1;
  }

  /** `name` starting with T, followed by OR. */
  method NameStartsWithT() returns (q: Query)
    ensures fresh(q) && q.Valid()
    ensures q.condCols == ["name LIKE ?", "OR"] && q.condVals == [Text("T%")]
  {
    assert Render("name", OpPrefix, Text("T")) == Rendered("name LIKE ?", Text("T%"));
    q := new Query();
    q := q.AddCondition("name", OpPrefix, Text("T"), LogicOr);
  }

  lemma PatternConditionsText()
    ensures "name LIKE ?" + " " + "OR" + " " + "name LIKE ?" == "name LIKE ? OR name LIKE ?"
  {
  }

  method PatternConditions() returns (expr: string, vals: seq<Value>)
    ensures expr == "name LIKE ? OR name LIKE ?" && vals == [Text("T%"), Text("%m")]
  {
    assert Render("name", OpSuffix, Text("m")) == Rendered("name LIKE ?", Text("%m"));
    PatternConditionsText();
    var q := NameStartsWithT();
    q := q.AddCondition("name", OpSuffix, Text("m"), LogicAnd);
    var w := q.Where();
    expr, vals := w.0, w.1;
  }

  /** `name` containing x, followed by AND. */
  method NameContainsX() returns (q: Query)
    ensures fresh(q) && q.Valid()
    ensures q.condCols == ["name LIKE ?", "AND"] && q.condVals == [Text("%x%")]
  {
    assert Render("name", OpContain, Text("x")) == Rendered("name LIKE ?", Text("%x%"));
    q := new Query();
    q := q.AddCondition("name", OpContain, Text("x"), LogicAnd);
  }

  lemma ContainAndInText()
    ensures "name LIKE ?" + " " + "AND" + " " + "age IN (?)" == "name LIKE ? AND age IN (?)"
  {
  }

  method ContainAndIn() returns (expr: string, vals: seq<Value>)
    ensures expr == "name LIKE ? AND age IN (?)"
    ensures vals == [Text("%x%"), Collection([Number(10), Number(20)])]
  {
    var ages := Collection([Number(10), Number(20)]);
    assert Render("age", OpIn, ages) == Rendered("age IN (?)", ages);
    ContainAndInText();
    var q := NameContainsX();
    q := q.AddCondition("age", OpIn, ages, LogicAnd);
    var w := q.Where();
    expr, vals := w.0, w.1;
  }

  /** `a = 1` with an unknown logic keyword. */
  method UnknownLogic() returns (q: Query)
    ensures fresh(q) && q.Valid()
    ensures q.condCols == ["a = ?", "AND"] && q.condVals == [Number(1)]
  {
    assert Render("a", OpEq, Number(1)).expr == "a = ?";
    assert LogicToken("XOR") == "AND";
    q := new Query();
    q := q.AddCondition("a", OpEq, Number(1), "XOR");
  }

  lemma UnknownLogicIsAndText()
    ensures "a = ?" + " " + "AND" + " " + "b = ?" == "a = ? AND b = ?"
  {
  }

  /** An unknown logic keyword joins with AND. */
  method UnknownLogicIsAnd() returns (expr: string)
    ensures expr == "a = ? AND b = ?"
  {
    assert Render("b", OpEq, Number(2)).expr == "b = ?";
    UnknownLogicIsAndText();
    var q := UnknownLogic();
    q := q.AddCondition("b", OpEq, Number(2), LogicAnd);
    var w := q.Where();
    expr := w.0;
  }

  /** The parenthesised group of `a = ? OR b = ?`. */
  lemma GroupRendering()
    ensures "(" + WhereExpr(["a = ?", "OR", "b = ?", "OR"]) + ")" == "(a = ? OR b = ?)"
  {
    var inner := ["a = ?", "OR", "b = ?", "OR"][..3];
    assert inner == ["a = ?", "OR"] + ["b = ?"];
    JoinSnoc(["a = ?", "OR"], "b = ?", " ");
    assert ["a = ?", "OR"] == ["a = ?"] + ["OR"];
    JoinSnoc(["a = ?"], "OR", " ");
    assert "(" + ("a = ?" + " " + "OR" + " " + "b = ?") + ")" == "(a = ? OR b = ?)";
  }

  /** The group followed by one more condition. */
  lemma GroupThenRendering()
    ensures WhereExpr(["(a = ? OR b = ?)", "AND", "c > ?", "OR"]) == "(a = ? OR b = ?) AND c > ?"
  {
    WhereAfterAdd(["(a = ? OR b = ?)", "AND"], "c > ?", "OR");
    assert ["(a = ? OR b = ?)", "AND"] + ["c > ?", "OR"] == ["(a = ? OR b = ?)", "AND", "c > ?", "OR"];
    assert ["(a = ? OR b = ?)", "AND"][..1] == ["(a = ? OR b = ?)"];
    assert "(a = ? OR b = ?)" + " " + "AND" + " " + "c > ?" == "(a = ? OR b = ?) AND c > ?";
  }

  /** `a = ? OR b = ?`, each condition followed by OR. */
  method TwoAlternatives() returns (q: Query)
    ensures fresh(q) && q.Valid()
    ensures q.condCols == ["a = ?", "OR", "b = ?", "OR"]
    ensures q.condVals == [Number(1), Number(2)]
  {
    assert Render("a", OpEq, Number(1)) == Rendered("a = ?", Number(1));
    assert Render("b", OpEq, Number(2)) == Rendered("b = ?", Number(2));
    q := new Query();
    q := q.AddCondition("a", OpEq, Number(1), LogicOr);
    q := q.AddCondition("b", OpEq, Number(2), LogicOr);
  }

  /** The two alternatives grouped, the group followed by AND. */
  method GroupedAlternatives() returns (q: Query)
    ensures fresh(q) && q.Valid()
    ensures q.condCols == ["(a = ? OR b = ?)", "AND"]
    ensures q.condVals == [Number(1), Number(2)]
  {
    GroupRendering();
    q := TwoAlternatives();
    q := q.GroupConditions(LogicAnd);
  }

  /** Grouping parenthesises everything so far; the group's keyword joins it
      to the next condition. */
  method GroupThenCondition() returns (expr: string, vals: seq<Value>)
    ensures expr == "(a = ? OR b = ?) AND c > ?"
    ensures vals == [Number(1), Number(2), Number(3)]
  {
    assert Render("c", OpGt, Number(3)) == Rendered("c > ?", Number(3));
    GroupThenRendering();
    var q := GroupedAlternatives();
    q := q.AddCondition("c", OpGt, Number(3), LogicOr);
    assert q.condCols == ["(a = ? OR b = ?)", "AND", "c > ?", "OR"];
    var w := q.Where();
    expr, vals := w.0, w.1;
  }

  method Pages() returns (first: Window, second: Window)
    ensures first == Window(1, 10, 0)
    ensures second == Window(2, 100, 100)
  {
    var pq := new PageQuery.NewPageQuery(0, 0);
    first := Window(pq.Page(), pq.Size(), pq.Offset());
    pq := new PageQuery.NewPageQuery(2, 100);
    second := Window(pq.Page(), pq.Size(), pq.Offset());
  }

  method LimitRoundTrip() returns (l: u64)
    ensures l == 25
  {
    var q := new Query();
    q := q.AddLimit(25);
    l := q.Limit();
  }
}
