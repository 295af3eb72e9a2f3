# gormqy predicate assembler, modelled in Dafny

gormqy assembles the parameterised part of a SQL query: a `WHERE` template
with `?` placeholders, the ordered list of values bound to them, an
`ORDER BY` list, a limit and page arithmetic. Its central promise is that the
template holds exactly one `?` per bound value, in value order. The rest of
its output is exact strings: joins, brackets and `%` wildcards.

The repository holds two evolutions of the builder, and the model keeps them
apart:

- `Legacy` (legacy.dfy) models query.go. A `Query` keeps one flat list in
  which each rendered condition is followed by its logic keyword, plus a
  parallel list of values, the order entries and a limit. `PageQuery` adds
  clamped page, size and offset.
- `Fluent` (fluent.dfy) models condition.go, logic.go and order.go. A
  `Condition` collects predicate fragments, values and pending left-bracket
  wrappers. Its `Logic` handle adds AND/OR, or ends the group by flushing it
  into the owning `Query`'s `whereExprs`/`whereVals`. The `Query` also holds
  the ORDER BY entries.
- `Sql` (sql.dfy) is the shared vocabulary:
  - bound values;
  - column identifiers, which contain no `?`;
  - `Marks`, the number of `?` in a string;
  - `Join`, which is Go's `strings.Join`;
  - `u64`, which is Go's `uint64`.
- `LegacyScenarios` and `FluentScenarios` replay concrete call chains,
  including every case in query_test.go. Each chain is stated as a method
  whose `ensures` gives the exact strings and values it produces.

Objects the source updates in place are Dafny classes with `modifies`
frames. In each method, `ensures` gives the whole new state in terms of the
old one. A ghost predicate carries the placeholder-alignment invariant:
`Legacy.Query.Valid` on the legacy side, and `Aligned` on the fluent
`Condition` and `Query`. Every mutating method is proved to preserve it.
Pure computations are functions with lemmas about them.

The scenario files also contain small staging methods (`NameIsTom`,
`OpenAOr`, …). Each performs one builder call of a longer chain. There are
also helper lemmas: `Pushed1` and `Pushed3` put a predicate's column and
operator text together as its fragment, `Spellings` holds the literal
predicate strings, and the `…Rendering` lemmas hold the joined strings of one
scenario. These are helpers, not rows below.

## Model

| member | source | states |
|---|---|---|
| Sql.NoMarks | query.go:77-91 | a string has zero placeholders exactly when it contains no `?` |
| Sql.MarksConcat | query.go:92 | the placeholders of a concatenation are the sum of those of its parts |
| Sql.MarksWrapped | query.go:99 | text without `?` around a fragment adds no placeholder (the group's brackets, the `concat_ws(...)` frame) |
| Sql.OnePlaceholder | query.go:79 | a single `?` between `?`-free text is exactly one placeholder |
| Sql.MarksAllSnoc | query.go:92-93 | appending a fragment adds its placeholders to the running total |
| Sql.JoinSnoc | query.go:109 | joining one more element extends the joined string by the separator and that element; one element joins to itself |
| Sql.JoinConcat | query.go:45 | joining two non-empty lists is joining their joins with the separator between |
| Sql.JoinMarks | logic.go:45 | with a `?`-free separator, the joined string carries exactly the placeholders of its elements |
| Legacy.ConcatCol | query.go:40-46 | the loop copies the columns in order and the result is `concat_ws('<sep>', c1, c2, …)`; with a `?`-free separator the result has no placeholder |
| Legacy.ConcatWsExtend | query.go:45 | the expression for `cols + more` is the one for `cols` with `more`'s columns appended after `, ` |
| Legacy.LogicToken | query.go:72-74 | the keyword is OR or AND, and it is OR exactly when the argument is OR |
| Legacy.OrderToken | query.go:60-62 | the method is ASC or DESC, and it is ASC exactly when the argument is ASC |
| Legacy.Render | query.go:75-91 | Contain/Prefix/Suffix render `col LIKE ?` and bind `%v%`, `v%`, `%v`; IN renders `col IN (?)`; every other operator renders `col <op> ?`; non-pattern operators bind the value unchanged |
| Legacy.RenderOnePlaceholder | query.go:77-91 | every rendered condition carries exactly one placeholder, whatever the operator |
| Legacy.WhereAligned | query.go:105-110 | a well-laid-out condition list yields a template with exactly one placeholder per value |
| Legacy.WhereAfterAdd | query.go:105-110 | after one more condition, the template is the old one, then the previously trailing keyword, then the new condition (the first condition alone is the whole template) |
| Legacy.AddKeepsLayout | query.go:92-93 | pushing a one-placeholder condition, a keyword and one value keeps the even-length, aligned layout |
| Legacy.GroupKeepsLayout | query.go:97-103 | replacing the list by the parenthesised group and a keyword keeps the layout with the same values |
| Legacy.Query.constructor | query.go:55-57 | a fresh query is empty and well laid out |
| Legacy.Query.AddOrder | query.go:59-65 | appends exactly `col ASC` or `col DESC`; the order string grows by `, ` and that entry |
| Legacy.Query.Order | query.go:67-69 | `""` without entries, the entry itself for one |
| Legacy.Query.AddCondition | query.go:71-95 | `condCols` grows by exactly the rendered condition and the normalised keyword, `condVals` by exactly the rendered value; the layout invariant is kept; the template extends by the old trailing keyword and the new condition |
| Legacy.Query.GroupConditions | query.go:97-103 | `condCols` becomes exactly `["(" + old template + ")", logic]`; values are unchanged; the new template is the parenthesised old one; the invariant is kept |
| Legacy.Query.Where | query.go:105-110 | `("", [])` for a query without conditions, otherwise the values are `condVals` |
| Legacy.Query.WhereIsAligned | query.go:77-110 | on a well-formed query the WHERE template has exactly one placeholder per returned value |
| Legacy.Query.AddLimit | query.go:112-115 | the limit read back is the one set |
| Legacy.Paginate | query.go:128-140 | page and size are at least 1; page 0 becomes 1 and size 0 becomes 10, other inputs are kept; the offset is `(page-1)*size` modulo 2^64 |
| Legacy.PaginateExact | query.go:138 | without wrap-around the offset is exactly `(page-1)*size`, a multiple of the size, and it divides back to `page-1` |
| Legacy.PageQuery.NewPageQuery | query.go:128-152 | the page query's page, size and offset are those of `Paginate`; its embedded query is fresh and empty |
| LegacyScenarios.ConcatColumns | query_test.go:13-14 | `concat_ws('\|', name)` and `concat_ws('\|', name, addr)` |
| LegacyScenarios.OrderInCallOrder | query_test.go:34-46 | `id DESC`, then `id DESC, name ASC` |
| LegacyScenarios.UnknownOrderIsDescending | query.go:60-62 | an unknown order method sorts descending |
| LegacyScenarios.EmptyWhere | query.go:106-108 | a fresh query has the empty template and no values |
| LegacyScenarios.SingleCondition | query_test.go:73-79 | `id = ?` with `[1]` |
| LegacyScenarios.TwoConditions | query_test.go:80-87 | `name = ? AND age <= ?` with `[Tom, 20]` |
| LegacyScenarios.PatternConditions | query_test.go:88-95 | `name LIKE ? OR name LIKE ?` with `[T%, %m]` |
| LegacyScenarios.ContainAndIn | query_test.go:96-103 | `name LIKE ? AND age IN (?)` with `[%x%, [10, 20]]` |
| LegacyScenarios.UnknownLogicIsAnd | query.go:72-74 | an unknown logic keyword joins with AND |
| LegacyScenarios.GroupThenCondition | query.go:97-103 | `a OR b`, grouped with AND, then `c`: `(a = ? OR b = ?) AND c > ?` with `[1, 2, 3]` |
| LegacyScenarios.Pages | query_test.go:132-133 | `(0, 0)` gives page 1, size 10, offset 0; `(2, 100)` gives 2, 100, 100 |
| LegacyScenarios.LimitRoundTrip | query.go:112-119 | a limit of 25 reads back as 25 |
| Fluent.Apply | condition.go:37-47 | a bracket wrapper adds one character and no placeholder |
| Fluent.ApplyAll | condition.go:94-96 | applying pending wrappers in order never changes the placeholder count |
| Fluent.ApplyAllLeft | condition.go:94-96 | k pending left brackets prefix exactly k `(` to the next predicate |
| Fluent.GroupExpr | logic.go:45-49 | the flushed fragment carries exactly the placeholders of the group's parts; a grouped one starts with `(` and ends with `)` |
| Fluent.FlushKeepsAlignment | logic.go:50-51 | flushing an aligned group into an aligned query keeps the query aligned |
| Fluent.Predicate | condition.go:49-71 | a predicate `col <op> ?` carries exactly one placeholder |
| Fluent.Query.constructor | logic.go:50-51 | the zero query that groups are flushed into: no fragments, values or orders, and aligned |
| Fluent.Query.DESC | order.go:13-16 | appends exactly `column DESC`, keeps earlier entries and returns the same query; the order string grows accordingly |
| Fluent.Query.ASC | order.go:18-21 | appends exactly `column ASC`, keeps earlier entries and returns the same query; the order string grows accordingly |
| Fluent.Query.Order | order.go:23-25 | `""` without entries, the entry itself for one |
| Fluent.Condition.WithLeftBracket | condition.go:23-26 | registers exactly one more left-bracket wrapper and returns the same condition |
| Fluent.Condition.withRightBracket | condition.go:28-33 | appends `)` to the last fragment only; no-op on an empty condition; length and placeholder count unchanged |
| Fluent.Condition.add | condition.go:93-102 | the loop applies the pending wrappers in order; exactly one wrapped fragment and one value are appended; the wrappers are cleared; the back-linked Logic handle is returned |
| Fluent.Condition.Eq | condition.go:49-51 | pushes `col = ?` (after pending wrappers) and the raw value; alignment kept |
| Fluent.Condition.NotEq | condition.go:53-55 | pushes `col != ?` and the raw value; alignment kept |
| Fluent.Condition.Ge | condition.go:57-59 | pushes `col >= ?` and the raw value; alignment kept |
| Fluent.Condition.Le | condition.go:61-63 | pushes `col <= ?` and the raw value; alignment kept |
| Fluent.Condition.Gt | condition.go:65-67 | pushes `col > ?` and the raw value; alignment kept |
| Fluent.Condition.Lt | condition.go:69-71 | pushes `col < ?` and the raw value; alignment kept |
| Fluent.Condition.Contain | condition.go:73-75 | pushes `col LIKE ?` and `%v%`; alignment kept |
| Fluent.Condition.Prefix | condition.go:77-79 | pushes `col LIKE ?` and `v%`; alignment kept |
| Fluent.Condition.Suffix | condition.go:81-83 | pushes `col LIKE ?` and `%v`; alignment kept |
| Fluent.Condition.In | condition.go:85-87 | pushes `col IN (?)` and the collection as one value; alignment kept |
| Fluent.Condition.NotIn | condition.go:89-91 | pushes `col NOT IN (?)` and the collection as one value; alignment kept |
| Fluent.Logic.And | logic.go:17-20 | appends exactly `AND` to the condition's fragments, leaves values alone, returns the same condition; alignment kept |
| Fluent.Logic.Or | logic.go:22-25 | appends exactly `OR`; as And otherwise |
| Fluent.Logic.End | logic.go:27-29 | an empty condition leaves the query unchanged; otherwise exactly one fragment, the parts joined by spaces, is appended, and all values after the existing ones; alignment kept |
| Fluent.Logic.EndWithGroup | logic.go:31-33 | as End, with the appended fragment parenthesised |
| Fluent.Logic.WithRightBracket | logic.go:35-38 | returns the same handle; only the last fragment changes, gaining `)`; alignment kept |
| Fluent.Logic.end | logic.go:40-52 | the early return for an empty group, the space join and optional brackets, and the appends to the owning query's fields |
| Fluent.NewCondition | condition.go:13-21 | a fresh condition and a fresh Logic handle, linked both ways, bound to the query, empty and aligned |
| FluentScenarios.SingleEq | condition.go:49-51 | `Eq("name", "Tom").End()` leaves `["name = ?"]` and `[Tom]` |
| FluentScenarios.EmptyEnd | logic.go:40-43 | ending an empty condition leaves the query empty |
| FluentScenarios.AndChain | logic.go:17-20 | `Eq.And.Gt` then End leaves `["name = ? AND age > ?"]` and `[Tom, 10]` |
| FluentScenarios.Brackets | condition.go:23-33 | a left bracket before `a`, OR, `b`, then a right bracket: `["(a = ? OR b = ?)"]` |
| FluentScenarios.TwoGroups | logic.go:46-51 | two grouped conditions on one query: `["(name = ?)", "(addr LIKE ?)"]` with `[Tom, %x%]` |
| FluentScenarios.PrefixChain | condition.go:77-79 | `Prefix("name", "T")` leaves `["name LIKE ?"]` and `[T%]` |
| FluentScenarios.SuffixChain | condition.go:81-83 | `Suffix("name", "m")` leaves `["name LIKE ?"]` and `[%m]` |
| FluentScenarios.MembershipChain | condition.go:85-91 | `In.And.NotIn` leaves `["id IN (?) AND age NOT IN (?)"]` and the two collections, in call order, for any collections |
| FluentScenarios.Orders | order.go:13-25 | `ASC("id").DESC("name")` gives `id ASC, name DESC` |

## Left out

- Legacy.Render: Go formats a pattern operator's value with `%s`, whatever its type; the model only accepts a text value for Contain, Prefix and Suffix. Go's `%!s(…)` rendering of non-strings is not modelled.
- Legacy.Query.AddCondition: inherits the text-value requirement for the pattern operators from Render.
- Legacy.Query.GroupConditions: on a query without conditions, the Go slice `condCols[:len-1]` panics. The model makes a non-empty condition list a precondition instead.
- Legacy.Paginate: `(page-1)*size` is stated modulo 2^64, as Go's `uint64` wraps. The exact value is proved only for inputs that do not overflow (PaginateExact).
- Column identifiers, operators and logic keywords are assumed free of `?`, so that the placeholder count is well defined.
- Legacy.Query.Where: Go returns a `nil` slice for an empty query; the model returns the empty sequence.
- Legacy.Query.Where: the placeholder count is not among its own postconditions; it is stated by Legacy.Query.WhereIsAligned.
- Condition wrappers (`ConditionExprWrapper`, condition.go:35-47) are closures in Go. They are modelled as the two-value datatype `Wrapper` and applied by `Apply`.
- limit.go is a verbatim copy of query.go:112-119, already modelled as `AddLimit`/`Limit`. The fluent `Query` has a `limit` field that nothing in the fluent files sets.
- The `PageQuery` forwarding wrappers (query.go:154-175) are not modelled separately. AddOrder and AddCondition call the base methods. GroupConditions (query.go:164-170) and AddLimit (query.go:172-175) repeat their bodies verbatim on the embedded query. All four behave as the base query's `AddOrder`, `AddCondition`, `GroupConditions` and `AddLimit`, which are modelled.
- The duplicate constants and the second `Order` exist because the two evolutions do not compile together. Each module declares its own.
- The top-level WHERE rendering over `whereExprs` and the newer design's `AndCondition`/`OrCondition` are not in these files. The model exposes `whereExprs`/`whereVals` directly.
- Query execution, gorm and the database are not part of this model.
- The Go test functions of query_test.go are not modelled. Their cases appear as the scenario methods.
- The accessors `Legacy.Query.Limit` and `Legacy.PageQuery.Page`/`Size`/`Offset` return a field and carry no contract of their own. What they return is stated by `AddLimit` and `NewPageQuery`.
- The fluent affix scenarios replay Prefix and Suffix separately, each ended on its own. A single `Prefix.Or.Suffix` chain is not replayed.
