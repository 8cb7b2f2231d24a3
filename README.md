# reiner `Wrapper` statement builder, modelled in Dafny

`Wrapper` is the fluent MySQL statement builder of the reiner library.

- Configuration calls store state on the wrapper: `Table`, `Where`, `OrWhere`, `Having`, `OrHaving`, `OrderBy`, `Limit` and `OnDuplicate`.
- Terminal calls render one statement from that state: `Get`, `GetOne`, `GetValue`, `Paginate`, `Insert`, `InsertMulti`, `Replace`, `Update`, `Delete` and `RawQuery`.
- The statement is SQL text with positional `?` placeholders plus an ordered parameter list.
- Every value is bound through `bindParam`. That call picks placeholder text from the value's runtime type (`?`, `NULL`, a function's raw SQL, or a parenthesised sub-query) and appends that value's parameters to `params`.
- Every terminal call except `RawQuery` joins its clauses in an order fixed per statement kind, applies `strings.TrimSpace`, records the text as `LastQuery`, and then `clean`s the per-statement fields.
- `RawQuery` records the caller's text as it is, binds its values, and neither trims nor cleans (wrapper.go:358-363).

Modules, one per concern of `wrapper.go`:

- `Text`: Go's `strings.TrimSpace` and `strings.Join`, the `trim` helper, `%d`, and `?` counting.
- `Values`: the runtime values a caller passes (`interface{}`) and what binding them renders and appends (`paramToQuery`, `bindParam`, `bindParams`, `Func`).
- `Conditions`: the WHERE/HAVING renderer of `buildWhere`. It classifies the first argument, then dispatches on argument count.
- `Clauses`: ORDER BY with `FIELD`, LIMIT and pagination, ON DUPLICATE KEY UPDATE, the INSERT/REPLACE lists, the UPDATE SET list, SELECT, DELETE, and `Now`.
- `Statements`: the builder state as a value, each terminal call's statement as a function of that state, and `clean`.
- `Builder`: the `Wrapper` class with the same fields.
  - Its methods loop and append as the Go code does.
  - Each method is proved to produce exactly its specification function from `Statements`, `Clauses` or `Conditions`.
  - Each method is also proved to leave exactly the specified new state.

Besides the per-call contracts, the main property is placeholder/parameter parity. Every statement rendered from balanced input holds exactly one `?` per parameter it binds. Balanced input means:

- no `?` in names;
- no `nil` values;
- functions and sub-queries whose text holds one `?` per value they carry;
- raw predicates (`Where("a = ? OR b = ?", x, y)`) whose text holds one `?` per value they bind;
- no parameters already pending when the statement starts, as an earlier `RawQuery` leaves them.

`nil` is the exception: it renders as `NULL` but still appends a parameter, so it breaks parity (`Values.NilBreaksParity`).

Two behaviours of the code that a caller may not expect are reproduced as written:

- A three-argument `IN` binds its value with `bindParam`, not `bindParams` (wrapper.go:432-433). A slice given there renders as `(?)` and is one parameter (`Conditions.InTripleDispatch`, `Values.ListBindsAsOneValue`).
- `bindParam(nil)` appends `nil` to the parameters although it renders `NULL` (wrapper.go:128-130, 141-142).

## Model

| member | source | states |
|---|---|---|
| Text.TrimSpace | wrapper.go:336 | definition: Go's `strings.TrimSpace`, the longest infix without Unicode white space at either end |
| Text.Join | wrapper.go:325 | definition: Go's `strings.Join`, the parts with the separator between neighbours (also used at 167 and 489) |
| Text.IntToString | wrapper.go:293-295 | definition: the `%d` verb, a minus sign for negatives, then the decimal digits |
| Text.Trim | wrapper.go:114 | definition: the assumed `trim`: drop a trailing ", ", then `TrimSpace` |
| Text.TrimTerminated | wrapper.go:114 | `trim` of a ", "-terminated accumulation equals `TrimSpace` of the parts joined by ", " (the assumed meaning of `trim`) |
| Text.IntRoundTrip | wrapper.go:288-298 | `%d` of an integer parses back to that integer and holds no `?` |
| Values.ParamToQuery | wrapper.go:135-147 | a sub-wrapper renders as `(query)`, a function as its query verbatim, nil as `NULL`, everything else as `?` |
| Values.Bound | wrapper.go:118-130 | definition: what `bindParam` appends: a sub-wrapper's params, a function's values, otherwise the value itself (nil and slices included) |
| Values.BindList | wrapper.go:99-116 | definition: `bindParams` of a list: placeholders joined by ", " and trimmed, every element bound in order |
| Values.Elements | wrapper.go:99-113 | `bindParams` iterates a `[]interface{}` element by element; any type other than the three slice types gives no elements |
| Values.ElementsOfSlices | wrapper.go:105-112 | a `[]int` or `[]string` binds one value per element, each as that element, in order |
| Values.PlaceholderAt | wrapper.go:99-116 | the k-th placeholder of a bound list is the k-th value's own placeholder |
| Values.BoundAllAppend | wrapper.go:118-133 | binding values one after another appends their bindings in order, keeping the earlier parameters as a prefix |
| Values.BindParity | wrapper.go:118-147 | a single bound value renders as many `?` as it appends parameters exactly when it is balanced (both directions) |
| Values.BindListParity | wrapper.go:99-116 | a `bindParams` list of balanced values renders one `?` per appended parameter |
| Values.NilBreaksParity | wrapper.go:128-142 | nil renders `NULL` yet appends one `nil`, so its text has no `?` for its parameter |
| Values.ListBindsAsOneValue | wrapper.go:118-147 | a slice bound through `bindParam` is one `?` and one parameter, the slice itself, while `bindParams` over an `[]int` binds exactly its elements, in order |
| Values.MakeFunc | wrapper.go:238-243 | `Func(query, data...)` renders its query verbatim and binds exactly `data`; it is balanced exactly when the query holds one `?` per value |
| Conditions.ShapeOf | wrapper.go:399-409 | definition: the `typ` of a condition from its first argument |
| Conditions.Renderable | wrapper.go:411-452 | definition: the argument lists that render without a failed type assertion or index: a lone string, a string keyword after a sub-query, string column and operator for 3 arguments, a string operator (and column for BETWEEN/IN) for 4 or more non-raw |
| Conditions.RenderCondition | wrapper.go:411-452 | definition: one condition's text and bindings, by argument count (1, 2, 3, 4+) and shape |
| Conditions.Link | wrapper.go:394-397 | definition: a condition preceded by its connector and a space unless it is the first |
| Conditions.Chain | wrapper.go:394-453 | definition: every condition linked in order |
| Conditions.ShapeClassifies | wrapper.go:399-409 | the first argument classifies the condition: sub-wrapper gives SubQuery; a string with `?` or `(`, or alone, gives Query; any other string gives Column; anything else leaves `typ` empty (each as an if-and-only-if) |
| Conditions.RenderBindsInOrder | wrapper.go:411-452 | a condition binds exactly its bound arguments in order: one value for 2 or 3 arguments (but nothing for a 2-argument condition whose first argument is neither a string nor a sub-wrapper, wrapper.go:427), every extra argument of a raw predicate or IN list, both BETWEEN ends, nothing for an unknown operator |
| Conditions.Clause | wrapper.go:374-393 | `buildWhere` of an empty list is `""` and binds nothing; a non-empty one starts with `HAVING ` for "HAVING" and `WHERE ` for anything else |
| Conditions.ChainFromFront | wrapper.go:394-397 | the first condition is rendered alone and every later one is preceded by its own connector |
| Conditions.ClauseFromFront | wrapper.go:374-397 | a clause is its keyword, the first condition, then each later condition after its connector |
| Conditions.ClauseOne | wrapper.go:374-414 | a one-condition clause is the keyword followed by that condition's rendering |
| Conditions.ClauseTwo | wrapper.go:394-397 | two conditions: keyword, first rendering, the second's `AND `/`OR `, second rendering, parameters in order |
| Conditions.EqualsDispatch | wrapper.go:423-424 | `Where("col", v)` renders `col = ? ` and binds v |
| Conditions.RawPairDispatch | wrapper.go:420-422 | `Where("pred(?)", v)` emits the predicate verbatim and binds v |
| Conditions.SubQueryDispatch | wrapper.go:425-426 | `Where(sub, "EXISTS")` renders `EXISTS (subquery) ` and binds the sub-query's own parameters |
| Conditions.UntypedPairDispatch | wrapper.go:399-427 | two arguments whose first is neither a string nor a sub-wrapper render and bind nothing |
| Conditions.InTripleDispatch | wrapper.go:432-433 | a 3-argument IN wraps one `bindParam` result in parentheses: `col IN (?) ` with one parameter, even for a slice |
| Conditions.NilTripleDispatch | wrapper.go:434-435 | `Where("col", "IS", nil)` renders `col IS NULL ` yet binds one nil |
| Conditions.BetweenDispatch | wrapper.go:446-447 | `col BETWEEN ? AND ? ` binding the low end and then the high end |
| Conditions.InListDispatch | wrapper.go:448-449 | a 4+-argument IN renders `col IN (?, ?, ...) ` with one `?` per listed value and binds them in order |
| Conditions.UnknownOperatorDispatch | wrapper.go:444-450 | a 4+-argument condition with any other operator renders and binds nothing |
| Conditions.ScalarList | wrapper.go:99-116 | `bindParams` over scalars renders `?, ?, ..., ?` and binds the scalars themselves |
| Conditions.ConditionParity | wrapper.go:411-452 | a balanced condition renders one `?` per parameter it binds |
| Conditions.ClauseParity | wrapper.go:374-455 | a WHERE or HAVING clause over balanced conditions renders one `?` per parameter it binds |
| Clauses.OrderEntry | wrapper.go:511-517 | definition: the bare column for no args, `col dir` for one, `FIELD (col, <bound list>) dir` binding `args[1:]` for more |
| Clauses.SelectClause | wrapper.go:321-328 | definition: `SELECT * FROM t ` without columns, else `SELECT c1, c2 FROM t ` |
| Clauses.DeleteClause | wrapper.go:488-491 | definition: `DELETE FROM t1, t2 ` |
| Clauses.LimitClause | wrapper.go:288-298 | definition: `""`, `LIMIT c ` or `LIMIT c, t ` for 0, 1 or 2 stored values, anything else `""` |
| Clauses.InsertClause | wrapper.go:164-195 | definition: `<op> <options>INTO <table> (<columns>) VALUES <values> ` with the values' bindings |
| Clauses.UpdateClause | wrapper.go:275-286 | definition: `UPDATE <table> SET <col = p, ...> `, assignments and bindings only for a single map |
| Clauses.TruncDiv | wrapper.go:354 | definition: Go's `/` on int, truncating toward zero |
| Clauses.Verb | wrapper.go:512-514 | an ORDER BY direction given as a string is written verbatim |
| Clauses.OrderClause | wrapper.go:505-508 | `buildOrderBy` with no orders is empty and binds nothing |
| Clauses.OrderParity | wrapper.go:505-521 | an ORDER BY over balanced entries holds one `?` per FIELD value it binds |
| Clauses.OrderClauseEdges | wrapper.go:509-519 | a non-empty ORDER BY starts with the keyword `ORDER BY` and, after `trim`, ends without white space |
| Clauses.LimitValues | wrapper.go:312-319 | `Limit(c)` stores `[c]`; `Limit(c, t...)` stores `[c, t[0]]` |
| Clauses.LimitReadsBack | wrapper.go:293-294 | `LIMIT c ` holds the count in decimal, which reads back as c |
| Clauses.LimitExamples | wrapper.go:288-298 | `Limit(5)` renders `LIMIT 5 ` and `Limit(5, 10)` renders `LIMIT 5, 10 ` |
| Clauses.LimitUnmarked | wrapper.go:288-298 | LIMIT writes its integers into the text and holds no `?` |
| Clauses.PageWindow | wrapper.go:353 | `Paginate` stores a window whose row count is the page limit |
| Clauses.PageWindowsTile | wrapper.go:353 | page 1 starts at offset 0 and page p+1 starts where page p ends |
| Clauses.TruncDivSpec | wrapper.go:354 | Go's integer division truncates: the remainder is smaller than the divisor and has the dividend's sign |
| Clauses.PaginationExample | wrapper.go:352-356 | page size 10, page 3, 95 rows: `LIMIT 20, 10 ` and 9 pages |
| Clauses.DuplicateClause | wrapper.go:149-152 | `buildDuplicate` without columns is empty |
| Clauses.DuplicateUntrimmed | wrapper.go:153-161 | a non-empty ON DUPLICATE KEY clause is the keyword and the assignments joined by ", ", ending in `)` |
| Clauses.DuplicateLeadsWithLastId | wrapper.go:154-156 | a configured LAST_INSERT_ID column gives the first assignment; the `col = VALUE(col)` parts follow in column order |
| Clauses.DuplicateUnmarked | wrapper.go:149-162 | with `?`-free column names the clause binds nothing and holds no `?` |
| Clauses.RecordSplit | wrapper.go:171-176 | the column list and the value list of a record read back, position by position, as the record's own pairs |
| Clauses.InsertParity | wrapper.go:164-195 | an INSERT/REPLACE head over balanced rows holds one `?` per parameter it binds |
| Clauses.UpdateParity | wrapper.go:275-286 | an UPDATE SET list over a balanced record holds one `?` per parameter it binds |
| Clauses.Now | wrapper.go:245-265 | `Now` is a function value that binds nothing, its query `TrimSpace("NOW() " + intervals)` |
| Clauses.NowForm | wrapper.go:255-264 | with known unit letters, `Now` is `NOW()` and one `<sign> INTERVAL <n> <UNIT>` per token, separated by single spaces |
| Clauses.NowPlain | wrapper.go:245-264 | `Now()` without tokens is `NOW()` |
| Clauses.IntervalEdge | wrapper.go:246-259 | a token with a known unit letter renders as text that ends in that unit's name (`YEAR`, `MONTH`, …), so its last character is upper-case |
| Statements.SelectStatement | wrapper.go:330-340 | definition: the pending params, then SELECT, WHERE, HAVING, ORDER BY, LIMIT, trimmed |
| Statements.InsertStatement | wrapper.go:202-213 | definition: INSERT head, ON DUPLICATE KEY, WHERE, HAVING, ORDER BY, LIMIT, trimmed |
| Statements.InsertMultiStatement | wrapper.go:215-225 | definition: as InsertStatement without LIMIT |
| Statements.ReplaceStatement | wrapper.go:227-236 | definition: REPLACE head, WHERE, HAVING, LIMIT, trimmed; needs only renderable conditions |
| Statements.UpdateStatement | wrapper.go:300-310 | definition: UPDATE head, WHERE, HAVING, ORDER BY, LIMIT, trimmed |
| Statements.DeleteStatement | wrapper.go:493-503 | definition: DELETE FROM every table, WHERE, HAVING, ORDER BY, LIMIT, trimmed |
| Statements.Cleaned | wrapper.go:83-91 | `clean` empties table, params, orders, both condition lists, limit and query, and keeps every other field |
| Statements.Finished | wrapper.go:337-338 | definition: what a terminal call leaves, `LastQuery` set to the statement text and then `clean` (the same two lines at 210-211, 222-223, 233-234, 307-308, 500-501) |
| Statements.CleanedIdempotent | wrapper.go:83-91 | cleaning twice is cleaning once |
| Statements.SelectAfterClean | wrapper.go:330-340 | after a terminal call, a SELECT with only a new table is the bare SELECT head, parameter-free |
| Statements.DeleteAfterClean | wrapper.go:493-503 | after a terminal call, a DELETE with only a new table is the bare DELETE head |
| Statements.OrderGluedToLimit | wrapper.go:330-336 | with the assumed `trim`, the ORDER BY clause ends in a non-blank, and the SELECT text with ORDER BY and one LIMIT value holds, right after the SELECT, WHERE and HAVING text, the ORDER BY clause immediately followed by `LIMIT ` |
| Statements.SelectParity | wrapper.go:330-340 | a SELECT over a balanced state renders one `?` per parameter |
| Statements.InsertStatementParity | wrapper.go:202-213 | an INSERT over a balanced state and rows renders one `?` per parameter |
| Statements.InsertMultiParity | wrapper.go:215-225 | the same for InsertMulti |
| Statements.ReplaceParity | wrapper.go:227-236 | the same for Replace, whatever orders and duplicate-key columns are stored, since it renders neither |
| Statements.UpdateStatementParity | wrapper.go:300-310 | the same for Update |
| Statements.DeleteParity | wrapper.go:493-503 | the same for Delete |
| Builder.Wrapper.constructor | wrapper.go:36-73 | a new wrapper has every field at its zero value |
| Builder.Wrapper.Clean | wrapper.go:83-91 | the new state is `Cleaned` of the old one |
| Builder.Wrapper.BindParam | wrapper.go:118-133 | returns the value's placeholder text and appends exactly what the value binds |
| Builder.Wrapper.BindParams | wrapper.go:99-116 | returns the trimmed join of the elements' placeholders and appends every element's binding in order |
| Builder.Wrapper.BuildCondition | wrapper.go:399-452 | renders one condition as `RenderCondition` and appends exactly its bindings |
| Builder.Wrapper.BuildLink | wrapper.go:394-452 | renders the connector (unless first) and the condition |
| Builder.Wrapper.BuildChain | wrapper.go:394-453 | the loop of `buildWhere` renders the whole chain and appends its bindings in order |
| Builder.Wrapper.BuildWhere | wrapper.go:374-455 | returns the WHERE or HAVING clause of the selected list and appends its bindings |
| Builder.Wrapper.SaveCondition | wrapper.go:457-466 | appends the condition to the HAVING list for "HAVING", to the WHERE list otherwise, changing nothing else |
| Builder.Wrapper.Where | wrapper.go:468-471 | appends an AND condition to the WHERE list |
| Builder.Wrapper.OrWhere | wrapper.go:473-476 | appends an OR condition to the WHERE list |
| Builder.Wrapper.Having | wrapper.go:478-481 | appends an AND condition to the HAVING list |
| Builder.Wrapper.OrHaving | wrapper.go:483-486 | appends an OR condition to the HAVING list |
| Builder.Wrapper.BuildEntry | wrapper.go:511-517 | renders one ORDER BY entry and appends its FIELD values only |
| Builder.Wrapper.BuildOrderBy | wrapper.go:505-521 | returns the ORDER BY clause and appends its FIELD values in order |
| Builder.Wrapper.OrderBy | wrapper.go:523-529 | appends one order, in call order, changing nothing else |
| Builder.Wrapper.BuildDuplicate | wrapper.go:149-162 | returns the ON DUPLICATE KEY clause and changes nothing |
| Builder.Wrapper.BindRow | wrapper.go:171-176 | one map: its keys and its placeholders, each ", "-terminated, with its values bound in order |
| Builder.Wrapper.BindTuple | wrapper.go:171-176 | one map as a parenthesised tuple of its bound values |
| Builder.Wrapper.BindBatch | wrapper.go:178-190 | a slice of maps: the first map's keys, one tuple per map, every value bound in order |
| Builder.Wrapper.BindValues | wrapper.go:170-192 | the column list and VALUES list for a map, a slice of maps or anything else, with exactly their bindings |
| Builder.Wrapper.BuildInsert | wrapper.go:164-195 | returns the INSERT/REPLACE head and appends its bindings |
| Builder.Wrapper.BindAssignments | wrapper.go:279-282 | `col = <placeholder>, ` per key, values bound in order |
| Builder.Wrapper.BuildUpdate | wrapper.go:275-286 | returns `UPDATE <table> SET <assignments> ` and appends its bindings; only a map assigns anything |
| Builder.Wrapper.Table | wrapper.go:197-200 | stores the table list, changing nothing else |
| Builder.Wrapper.OnDuplicate | wrapper.go:267-273 | stores the columns and, when one is given, the first LAST_INSERT_ID column |
| Builder.Wrapper.Limit | wrapper.go:312-319 | stores `[count]` or `[count, to[0]]`, changing nothing else |
| Builder.Wrapper.Finish | wrapper.go:336-338 | returns the TrimSpace of the query with its parameters, records it as the last query, and cleans |
| Builder.Wrapper.Get | wrapper.go:330-340 | returns `SelectStatement` of the old state and leaves the `Finished` state |
| Builder.Wrapper.GetOne | wrapper.go:342-345 | a SELECT with the limit replaced by `[1]` |
| Builder.Wrapper.GetValue | wrapper.go:347-350 | a SELECT of the single column `<column> AS Value` |
| Builder.Wrapper.Paginate | wrapper.go:352-356 | a SELECT over the page window, then the page count as truncating division of the total count by the page limit |
| Builder.Wrapper.Insert | wrapper.go:202-213 | returns `InsertStatement` of the old state and leaves the `Finished` state |
| Builder.Wrapper.InsertMulti | wrapper.go:215-225 | returns `InsertMultiStatement` (no LIMIT) and leaves the `Finished` state |
| Builder.Wrapper.Replace | wrapper.go:227-236 | returns `ReplaceStatement` (no ON DUPLICATE KEY, no ORDER BY) and leaves the `Finished` state; it asks nothing of the stored orders |
| Builder.Wrapper.Update | wrapper.go:300-310 | returns `UpdateStatement` of the old state and leaves the `Finished` state |
| Builder.Wrapper.Delete | wrapper.go:493-503 | returns `DeleteStatement` (every table) and leaves the `Finished` state |
| Builder.Wrapper.RawQuery | wrapper.go:358-363 | sets query and last query to the text, binds every value in order, and cleans nothing |
| Builder.Wrapper.RawQueryOne | wrapper.go:365-368 | the same as RawQuery |

## Left out

- Database plumbing is not modelled: the `*DB` handle, `database/sql` results, the MySQL driver, `newWrapper`, `Migration`, and executing a statement. The terminal calls return the text and parameters an executor would receive, and never return an error.
- The empty stubs have no behaviour to model: `buildPair`, `RawQueryValue`, `GroupBy`, the joins, `JoinWhere`, `JoinOrWhere`, `SubQuery`, `Has`, `Disconnect`, `Ping`, `Connect`, `Begin`, `Rollback`, `Commit`, the lock methods and `SetQueryOption`. No method in wrapper.go sets `queryOptions`, so it keeps whatever value the wrapper was created with.
- `Count`, `LastInsertID`, `LastInsertIDs` and `Timestamp` are never computed by the builder.
- The `trim` helper is not part of this model: `Text.Trim` assumes it drops a trailing ", " and then white space. One consequence is that ORDER BY and ON DUPLICATE KEY end without a space, so a following clause is glued to them (`ORDER BY id DESCLIMIT 1`). `Statements.OrderGluedToLimit` states this. It is not claimed as a defect of the code, since it rests on the assumed `trim`.
- Go map iteration order is random. Maps are modelled as records in a fixed order. So the model does not show that a batch INSERT can list the first map's columns in a different order from a later map's values.
- Go's runtime panics become preconditions:
  - a failed type assertion in `buildWhere` (`Conditions.Renderable`);
  - `tableName[0]` of an empty table list;
  - a `Now` token shorter than two bytes;
  - `Paginate` with a zero page limit.
- Clauses.Now: `Now` indexes bytes; the model indexes characters, so it matches Go only for ASCII tokens.
- Clauses.Verb: an ORDER BY direction is written with `%s`. Strings, and the `%!s(...)` forms for int, bool and nil, are modelled; other types are excluded by a precondition.
- Builder.Wrapper.Paginate: Go's 64-bit `int` wrap-around in `PageLimit*(pageCount-1)` is not modelled; integers are unbounded. The same holds for `%d` in `Text.IntToString`.
- A `*Wrapper` passed as a value is modelled as a snapshot of its query and parameters. Aliasing with the live sub-wrapper, and its later mutation, are not modelled.
- The loop bodies of `buildWhere`, `buildInsert`, `buildUpdate` and `bindParams` are factored into helper methods so each loop stays small. The rendered text and the order of bindings are unchanged.
