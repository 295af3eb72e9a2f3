/**
 * The first evolution of the builder (query.go): a query keeps its conditions
 * as one flat list in which every rendered condition is followed by the logic
 * keyword that joins it to the next one, plus a parallel list of bound values,
 * an order list and a limit. A page query adds clamped page arithmetic.
 */
module Legacy {
  import opened Sql

  /** A comparison operator. Any string is accepted; the four below are
      recognised specially, every other one is spliced between the column and
      the placeholder. It must not contain placeholders of its own. */
  type Operator = s: string | '?' !in s witness "="

  const OpEq: Operator := "="
  const OpLe: Operator := "<="
  const OpGe: Operator := ">="
  const OpLt: Operator := "<"
  const OpGt: Operator := ">"
  const OpNotEq: Operator := "!="
  const OpContain: Operator := "Contain"
  const OpPrefix: Operator := "Prefix"
  const OpSuffix: Operator := "Suffix"
  const OpIn: Operator := "IN"

  /** A logic keyword between two conditions, without placeholders. */
  type Logic = s: string | '?' !in s witness "AND"

  const LogicOr: Logic := "OR"
  const LogicAnd: Logic := "AND"

  const OrderASC: string := "ASC"
  const OrderDesc: string := "DESC"

  const DefaultPageSize: u64 := 10

  /** `concat_ws('<sep>', c1, c2, ...)`: the SQL expression concatenating the
      columns with a separator. */
  function ConcatWs(sep: string, cols: seq<string>): string
  {
    "concat_ws('" + sep + "', " + Join(cols, ", ") + ")"
  }

  /** The expression for `cols + more` is the one for `cols` with `more`'s
      columns appended after a comma. */
  lemma ConcatWsExtend(sep: string, cols: seq<string>, more: seq<string>)
    requires cols != [] && more != []
    ensures ConcatWs(sep, cols + more)
         == "concat_ws('" + sep + "', " + Join(cols, ", ") + ", " + Join(more, ", ") + ")"
  {
    JoinConcat(cols, more, ", ");
  }

  /** Builds the column list one element at a time, then formats it. */
  method ConcatCol(sep: string, cols: seq<Column>) returns (r: string)
    ensures r == ConcatWs(sep, cols)
    ensures '?' !in sep ==> '?' !in r
  {
    var cs: seq<string> := [];
    for i := 0 to |cols|
      invariant cs == cols[..i]
      invariant MarksAll(cs) == 0
    {
      NoMarks(cols[i]);
      MarksAllSnoc(cs, cols[i]);
      cs := cs + [cols[i]];
    }
    assert cs == cols;
    r := "concat_ws('" + sep + "', " + Join(cs, ", ") + ")";
    if '?' !in sep {
      JoinMarks(cs, ", ");
      MarksWrapped("concat_ws('" + sep + "', ", Join(cs, ", "), ")");
      NoMarks(r);
    }
  }

  /** Any logic other than OR is normalised to AND. */
  function LogicToken(logic: Logic): (r: Logic)
    ensures r == LogicOr || r == LogicAnd
    ensures r == LogicOr <==> logic == LogicOr
  {
    if logic != LogicOr then LogicAnd else logic
  }

  /** Any order method other than ASC is normalised to DESC. */
  function OrderToken(m: string): (r: string)
    ensures r == OrderASC || r == OrderDesc
    ensures r == OrderASC <==> m == OrderASC
  {
    if m != OrderASC then OrderDesc else m
  }

  predicate IsLike(op: Operator)
  {
    op == OpContain || op == OpPrefix || op == OpSuffix
  }

  /** A rendered condition and the value bound to its placeholder. */
  datatype Rendered = Rendered(expr: string, value: Value)

  /** One condition: the pattern operators render `col LIKE ?` and wrap the
      (text) value in wildcards, IN renders `col IN (?)` and binds the
      collection as one value, every other operator renders `col <op> ?`. */
  function Render(col: Column, op: Operator, value: Value): (r: Rendered)
    requires IsLike(op) ==> value.Text?
    ensures IsLike(op) ==> r.expr == col + " LIKE ?"
    ensures op == OpContain ==> r.value == Text("%" + value.s + "%")
    ensures op == OpPrefix ==> r.value == Text(value.s + "%")
    ensures op == OpSuffix ==> r.value == Text("%" + value.s)
    ensures op == OpIn ==> r.expr == col + " IN (?)"
    ensures !IsLike(op) && op != OpIn ==> r.expr == col + " " + op + " ?"
    ensures !IsLike(op) ==> r.value == value
  {
    if op == OpContain then Rendered(col + " LIKE ?", Text("%" + value.s + "%"))
    else if op == OpPrefix then Rendered(col + " LIKE ?", Text(value.s + "%"))
    else if op == OpSuffix then Rendered(col + " LIKE ?", Text("%" + value.s))
    else if op == OpIn then Rendered(col + " IN (?)", value)
    else Rendered(col + " " + op + " ?", value)
  }

  /** Every rendered condition carries exactly one placeholder, whatever the
      operator. */
  lemma RenderOnePlaceholder(col: Column, op: Operator, value: Value)
    requires IsLike(op) ==> value.Text?
    ensures Marks(Render(col, op, value).expr) == 1
  {
    var e := Render(col, op, value).expr;
    if IsLike(op) {
      assert e == (col + " LIKE ") + "?" + "";
      OnePlaceholder(col + " LIKE ", "");
    } else if op == OpIn {
      assert e == (col + " IN (") + "?" + ")";
      OnePlaceholder(col + " IN (", ")");
    } else {
      assert e == (col + " " + op + " ") + "?" + "";
      OnePlaceholder(col + " " + op + " ", "");
    }
  }

  /** The condition list of a query with its values: condition and logic
      keyword alternate, so the length is even; the trailing keyword carries
      no placeholder; and the list holds as many placeholders as there are
      values. */
  ghost predicate Layout(cols: seq<string>, vals: seq<Value>)
  {
    && |cols| % 2 == 0
    && (cols != [] ==> '?' !in cols[|cols| - 1])
    && MarksAll(cols) == |vals|
  }

  /** The WHERE template: every entry but the trailing logic keyword, joined by
      single spaces. */
  function WhereExpr(cols: seq<string>): string
  {
    if cols == [] then "" else Join(cols[..|cols| - 1], " ")
  }

  /** Placeholder alignment: the template has exactly one placeholder per
      bound value. */
  lemma WhereAligned(cols: seq<string>, vals: seq<Value>)
    ensures Layout(cols, vals) ==> Marks(WhereExpr(cols)) == |vals|
  {
    if Layout(cols, vals) && cols != [] {
      var n := |cols|;
      NoMarks(cols[n - 1]);
      JoinMarks(cols[..n - 1], " ");
      assert cols == cols[..n - 1] + [cols[n - 1]];
      MarksAllSnoc(cols[..n - 1], cols[n - 1]);
    }
  }

  /** Adding a condition extends the template by the previously trailing
      logic keyword and the new condition. */
  lemma WhereAfterAdd(cols: seq<string>, c: string, l: string)
    requires |cols| % 2 == 0
    ensures WhereExpr(cols + [c, l])
         == if cols == [] then c else WhereExpr(cols) + " " + cols[|cols| - 1] + " " + c
  {
    var n := |cols|;
    assert (cols + [c, l])[..n + 1] == cols + [c];
    JoinSnoc(cols, c, " ");
    if cols != [] {
      assert cols == cols[..n - 1] + [cols[n - 1]];
      JoinSnoc(cols[..n - 1], cols[n - 1], " ");
    }
  }

  lemma AddKeepsLayout(cols: seq<string>, vals: seq<Value>, c: string, l: Logic, v: Value)
    requires Layout(cols, vals) && Marks(c) == 1
    ensures Layout(cols + [c, l], vals + [v])
  {
    var next := cols + [c, l];
    assert next == (cols + [c]) + [l];
    assert |next| == |cols| + 2 && next[|next| - 1] == l;
    NoMarks(l);
    MarksAllSnoc(cols, c);
    MarksAllSnoc(cols + [c], l);
    assert MarksAll(next) == |vals| + 1;
  }

  /** Grouping keeps the layout: the group carries all placeholders, the new
      keyword none. */
  lemma GroupKeepsLayout(cols: seq<string>, vals: seq<Value>, l: Logic)
    requires Layout(cols, vals) && cols != []
    ensures Layout(["(" + WhereExpr(cols) + ")", l], vals)
  {
    var g := "(" + WhereExpr(cols) + ")";
    WhereAligned(cols, vals);
    MarksWrapped("(", WhereExpr(cols), ")");
    assert Marks(g) == |vals|;
    assert [] + [g] == [g];
    MarksAllSnoc([], g);
    assert [g] + [l] == [g, l];
    NoMarks(l);
    MarksAllSnoc([g], l);
    assert MarksAll([g, l]) == |vals|;
  }

  class Query {
    var condCols: seq<string>
    var condVals: seq<Value>
    var orders: seq<string>
    var limit: u64

    ghost predicate Valid()
      reads this
    {
      Layout(condCols, condVals)
    }

    /** NewQuery: the zero query. */
    constructor ()
      ensures Valid()
      ensures condCols == [] && condVals == [] && orders == [] && limit == 0
    {
      condCols, condVals, orders, limit := [], [], [], 0;
    }

    method AddOrder(col: string, m: string) returns (q: Query)
      modifies this`orders
      ensures q == this
      ensures orders == old(orders) + [col + " " + OrderToken(m)]
      ensures Order() == if old(orders) == [] then col + " " + OrderToken(m)
                         else old(Order()) + ", " + col + " " + OrderToken(m)
    {
      JoinSnoc(orders, col + " " + OrderToken(m), ", ");
      orders := orders + [col + " " + OrderToken(m)];
      q := this;
    }

    /** The ORDER BY list, entries separated by ", " in call order. */
    function Order(): (expr: string)
      reads this
      ensures orders == [] ==> expr == ""
      ensures |orders| == 1 ==> expr == orders[0]
    {
      Join(orders, ", ")
    }

    method AddCondition(col: Column, op: Operator, value: Value, logic: Logic) returns (q: Query)
      requires Valid()
      requires IsLike(op) ==> value.Text?
      modifies this`condCols, this`condVals
      ensures q == this && Valid()
      ensures condCols == old(condCols) + [Render(col, op, value).expr, LogicToken(logic)]
      ensures condVals == old(condVals) + [Render(col, op, value).value]
      ensures WhereExpr(condCols) == if old(condCols) == [] then Render(col, op, value).expr
              else WhereExpr(old(condCols)) + " " + old(condCols)[|old(condCols)| - 1]
                   + " " + Render(col, op, value).expr
    {
      var r := Render(col, op, value);
      var l := LogicToken(logic);
      RenderOnePlaceholder(col, op, value);
      AddKeepsLayout(condCols, condVals, r.expr, l, r.value);
      WhereAfterAdd(condCols, r.expr, l);
      condCols := condCols + [r.expr, l];
      condVals := condVals + [r.value];
      q := this;
    }

    /** Collapses every condition so far into one parenthesised group followed
        by `logic`. The Go slice `condCols[:len-1]` needs at least one
        entry. */
    method GroupConditions(logic: Logic) returns (q: Query)
      requires Valid() && condCols != []
      modifies this`condCols
      ensures q == this && Valid()
      ensures condCols == ["(" + WhereExpr(old(condCols)) + ")", logic]
      ensures WhereExpr(condCols) == "(" + WhereExpr(old(condCols)) + ")"
    {
      GroupKeepsLayout(condCols, condVals, logic);
      condCols := ["(" + Join(condCols[..|condCols| - 1], " ") + ")", logic];
      assert condCols[..1] == [condCols[0]];
      q := this;
    }

    /** The WHERE template and its values; empty for a query without
        conditions. WhereIsAligned shows that a Valid query's template has one
        placeholder per value. */
    function Where(): (r: (string, seq<Value>))
      reads this
      ensures condCols == [] ==> r == ("", [])
      ensures condCols != [] ==> r.1 == condVals
    {
      if condCols == [] then ("", []) else (WhereExpr(condCols), condVals)
    }

    /** The WHERE template of a well-formed builder carries one placeholder
        per bound value. */
    lemma WhereIsAligned()
      requires Valid()
      ensures Marks(Where().0) == |Where().1|
    {
      WhereAligned(condCols, condVals);
    }

    method AddLimit(l: u64) returns (q: Query)
      modifies this`limit
      ensures q == this && Limit() == l
    {
      limit := l;
      q := this;
    }

    function Limit(): u64
      reads this
    {
      limit
    }
  }

  /** Page number, page size and the offset of the page's first row. */
  datatype Window = Window(page: u64, size: u64, offset: u64)

  /** Page 0 means the first page and size 0 the default size; the offset is
      (page - 1) * size in 64-bit unsigned arithmetic. */
  function Paginate(page: u64, size: u64): (r: Window)
    ensures 1 <= r.page && 1 <= r.size
    ensures r.page == page || (page == 0 && r.page == 1)
    ensures r.size == size || (size == 0 && r.size == DefaultPageSize)
    ensures r.offset as int == ((r.page as int - 1) * r.size as int) % 0x1_0000_0000_0000_0000
  {
    var p := if page == 0 then 1 else page;
    var s := if size == 0 then DefaultPageSize else size;
    Window(p, s, (((p as int - 1) * s as int) % 0x1_0000_0000_0000_0000) as u64)
  }

  /** Without wrap-around the offset skips exactly the rows of the earlier
      pages. */
  lemma PaginateExact(page: u64, size: u64)
    requires (Paginate(page, size).page as int - 1) * Paginate(page, size).size as int
             < 0x1_0000_0000_0000_0000
    ensures var r := Paginate(page, size);
      && r.offset as int == (r.page as int - 1) * r.size as int
      && r.offset as int % r.size as int == 0
      && r.offset as int / r.size as int == r.page as int - 1
  {
    var r := Paginate(page, size);
    var a, b := r.page as int - 1, r.size as int;
    assert a * b >= 0;
    MulDiv(a, b);
  }

  lemma MulDiv(a: nat, b: nat)
    requires b > 0
    ensures (a * b) % b == 0 && (a * b) / b == a
  {
    var q, r := (a * b) / b, (a * b) % b;
    assert a * b == q * b + r && 0 <= r < b;
    assert (a - q) * b == r;
    if a - q >= 1 {
      MulAtLeast(a - q, b);
    } else if a - q <= -1 {
      MulAtLeast(q - a, b);
    }
  }

  lemma MulAtLeast(k: nat, b: nat)
    requires k >= 1
    ensures k * b >= b
  {
    assert k * b == (k - 1) * b + b;
  }

  class PageQuery {
    /** The embedded base query. */
    const base: Query
    const page: u64
    const size: u64
    const offset: u64

    constructor NewPageQuery(page: u64, size: u64)
      ensures fresh(base) && base.Valid()
      ensures base.condCols == [] && base.condVals == [] && base.orders == [] && base.limit == 0
      ensures Window(Page(), Size(), Offset()) == Paginate(page, size)
    {
      var w := Paginate(page, size);
      base := new Query();
      this.page, this.size, this.offset := w.page, w.size, w.offset;
    }

    function Page(): u64 { page }
    function Size(): u64 { size }
    function Offset(): u64 { offset }
  }
}
