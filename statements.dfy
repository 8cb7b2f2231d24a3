/**
 * Statement assembly: the builder's state as a value, the statement each
 * terminal call renders from it (its clauses in the kind's fixed order, then
 * TrimSpace), and the reset `clean` performs.
 */
module Statements {
  import opened Text
  import opened Values
  import opened Conditions
  import opened Clauses

  /** The fields of a `Wrapper` that statement building reads or writes. */
  datatype BuilderState = BuilderState(
    query: string,
    tableName: seq<string>,
    conditions: seq<Condition>,
    havingConditions: seq<Condition>,
    queryOptions: seq<string>,
    params: seq<Value>,
    onDuplicateColumns: seq<string>,
    lastInsertIdColumn: string,
    limit: seq<int>,
    orders: seq<Order>,
    totalCount: int,
    pageLimit: int,
    totalPage: int,
    lastQuery: string)

  /** A zero `Wrapper`. */
  const Initial := BuilderState("", [], [], [], [], [], [], "", [], [], 0, 0, 0, "")

  /** `clean`: the per-statement fields reset, everything else kept. */
  function Cleaned(s: BuilderState): (c: BuilderState)
    ensures c.tableName == [] && c.params == [] && c.orders == [] && c.limit == []
    ensures c.conditions == [] && c.havingConditions == [] && c.query == ""
    ensures c.queryOptions == s.queryOptions && c.onDuplicateColumns == s.onDuplicateColumns
    ensures c.lastInsertIdColumn == s.lastInsertIdColumn && c.lastQuery == s.lastQuery
    ensures c.totalCount == s.totalCount && c.pageLimit == s.pageLimit && c.totalPage == s.totalPage
  {
    s.(tableName := [], params := [], orders := [], conditions := [], havingConditions := [], limit := [], query := "")
  }

  /** The state a terminal call leaves: its text recorded as the last query, then cleaned. */
  function Finished(s: BuilderState, sql: string): BuilderState {
    Cleaned(s).(lastQuery := sql)
  }

  /** What rendering WHERE and HAVING needs without a panic. */
  predicate Filters(s: BuilderState) {
    AllRenderable(s.conditions) && AllRenderable(s.havingConditions)
  }

  /** What a terminal call that also renders ORDER BY needs, apart from its own head. */
  predicate Renders(s: BuilderState) {
    Filters(s) && OrdersReady(s.orders)
  }

  function Where(s: BuilderState): Fragment
    requires AllRenderable(s.conditions)
  {
    Clause("WHERE", s.conditions)
  }

  function Having(s: BuilderState): Fragment
    requires AllRenderable(s.havingConditions)
  {
    Clause("HAVING", s.havingConditions)
  }

  function Limit(s: BuilderState): Fragment {
    Fragment(LimitClause(s.limit), [])
  }

  /** The text after TrimSpace, the parameters as bound. */
  function Trimmed(f: Fragment): Fragment {
    Fragment(TrimSpace(f.sql), f.args)
  }

  /** A statement head rendered after any parameters already pending. */
  function Led(s: BuilderState, head: Fragment): Fragment {
    Fragment(head.sql, s.params + head.args)
  }

  /** The ON DUPLICATE KEY UPDATE part, which binds nothing. */
  function Duplicate(s: BuilderState): Fragment {
    Fragment(DuplicateClause(s.onDuplicateColumns, s.lastInsertIdColumn), [])
  }

  /** `Get(columns...)`: SELECT, WHERE, HAVING, ORDER BY, LIMIT. */
  function SelectStatement(s: BuilderState, columns: seq<string>): Fragment
    requires Renders(s) && |s.tableName| > 0
  {
    Trimmed(Fragment(SelectClause(columns, s.tableName[0]), s.params)
      .Then(Where(s)).Then(Having(s)).Then(OrderClause(s.orders)).Then(Limit(s)))
  }

  /** `Insert(data)`: INSERT, ON DUPLICATE KEY, WHERE, HAVING, ORDER BY, LIMIT. */
  function InsertStatement(s: BuilderState, data: Rows): Fragment
    requires Renders(s) && |s.tableName| > 0
  {
    Trimmed(Led(s, InsertClause("INSERT", s.queryOptions, s.tableName[0], data)).Then(Duplicate(s))
      .Then(Where(s)).Then(Having(s)).Then(OrderClause(s.orders)).Then(Limit(s)))
  }

  /** `InsertMulti(data)`: as Insert, without LIMIT. */
  function InsertMultiStatement(s: BuilderState, data: Rows): Fragment
    requires Renders(s) && |s.tableName| > 0
  {
    Trimmed(Led(s, InsertClause("INSERT", s.queryOptions, s.tableName[0], data)).Then(Duplicate(s))
      .Then(Where(s)).Then(Having(s)).Then(OrderClause(s.orders)))
  }

  /** `Replace(data)`: REPLACE, WHERE, HAVING, LIMIT; no ON DUPLICATE KEY and no ORDER BY. */
  function ReplaceStatement(s: BuilderState, data: Rows): Fragment
    requires Filters(s) && |s.tableName| > 0
  {
    Trimmed(Led(s, InsertClause("REPLACE", s.queryOptions, s.tableName[0], data))
      .Then(Where(s)).Then(Having(s)).Then(Limit(s)))
  }

  /** `Update(data)`: UPDATE ... SET, WHERE, HAVING, ORDER BY, LIMIT. */
  function UpdateStatement(s: BuilderState, data: Rows): Fragment
    requires Renders(s) && |s.tableName| > 0
  {
    Trimmed(Led(s, UpdateClause(s.tableName[0], data))
      .Then(Where(s)).Then(Having(s)).Then(OrderClause(s.orders)).Then(Limit(s)))
  }

  /** `Delete()`: DELETE FROM every table, WHERE, HAVING, ORDER BY, LIMIT. */
  function DeleteStatement(s: BuilderState): Fragment
    requires Renders(s)
  {
    Trimmed(Fragment(DeleteClause(s.tableName), s.params)
      .Then(Where(s)).Then(Having(s)).Then(OrderClause(s.orders)).Then(Limit(s)))
  }

  // ----- placeholder / parameter parity of whole statements -----

  predicate Parity(f: Fragment) {
    Marks(f.sql) == |f.args|
  }

  lemma ThenParity(a: Fragment, b: Fragment)
    requires Parity(a) && Parity(b)
    ensures Parity(a.Then(b))
  {
    MarksCat(a.sql, b.sql);
  }

  lemma TrimmedParity(f: Fragment)
    requires Parity(f)
    ensures Parity(Trimmed(f))
  {
    TrimSpaceMarks(f.sql);
  }

  /**
   * What a REPLACE needs for parity: balanced conditions, a table and
   * options without `?`, and no parameters left from an earlier call.
   */
  predicate HeadBalanced(s: BuilderState) {
    && Filters(s)
    && ClauseBalanced(s.conditions) && ClauseBalanced(s.havingConditions)
    && s.params == []
    && Unmarked(s.tableName) && Unmarked(s.queryOptions)
  }

  /** What SELECT, UPDATE and DELETE need besides: balanced orders. */
  predicate BodyBalanced(s: BuilderState) {
    HeadBalanced(s) && OrdersReady(s.orders) && OrdersBalanced(s.orders)
  }

  /** What the INSERT statements need besides: duplicate-key names without `?`. */
  predicate StateBalanced(s: BuilderState) {
    BodyBalanced(s) && Unmarked(s.onDuplicateColumns) && '?' !in s.lastInsertIdColumn
  }

  /** WHERE, HAVING and LIMIT each keep parity. */
  lemma WhereParity(s: BuilderState)
    requires HeadBalanced(s)
    ensures Parity(Where(s)) && Parity(Having(s)) && Parity(Limit(s))
  {
    ClauseParity("WHERE", s.conditions);
    ClauseParity("HAVING", s.havingConditions);
    LimitUnmarked(s.limit);
    MarksZero(LimitClause(s.limit));
  }

  /** WHERE, HAVING, ORDER BY and LIMIT of a balanced state each keep parity. */
  lemma FilterParity(s: BuilderState)
    requires BodyBalanced(s)
    ensures Parity(Where(s)) && Parity(Having(s)) && Parity(OrderClause(s.orders)) && Parity(Limit(s))
  {
    WhereParity(s);
    OrderParity(s.orders);
  }

  /** Four clauses after a head, each keeping parity, keep it together and through TrimSpace. */
  lemma Parity4(f: Fragment, a: Fragment, b: Fragment, c: Fragment, d: Fragment)
    requires Parity(f) && Parity(a) && Parity(b) && Parity(c) && Parity(d)
    ensures Parity(Trimmed(f.Then(a).Then(b).Then(c).Then(d)))
  {
    ThenParity(f, a);
    ThenParity(f.Then(a), b);
    ThenParity(f.Then(a).Then(b), c);
    ThenParity(f.Then(a).Then(b).Then(c), d);
    TrimmedParity(f.Then(a).Then(b).Then(c).Then(d));
  }

  lemma Parity3(f: Fragment, a: Fragment, b: Fragment, c: Fragment)
    requires Parity(f) && Parity(a) && Parity(b) && Parity(c)
    ensures Parity(Trimmed(f.Then(a).Then(b).Then(c)))
  {
    ThenParity(f, a);
    ThenParity(f.Then(a), b);
    ThenParity(f.Then(a).Then(b), c);
    TrimmedParity(f.Then(a).Then(b).Then(c));
  }

  lemma SelectHeadParity(columns: seq<string>, table: string)
    requires Unmarked(columns) && '?' !in table
    ensures Marks(SelectClause(columns, table)) == 0
  {
    JoinUnmarked(columns, ", ");
    NoMarks(SelectClause(columns, table));
  }

  /** A SELECT over a balanced state renders one `?` per parameter, in order. */
  lemma SelectParity(s: BuilderState, columns: seq<string>)
    requires BodyBalanced(s) && |s.tableName| > 0 && Unmarked(columns)
    ensures Parity(SelectStatement(s, columns))
  {
    FilterParity(s);
    SelectHeadParity(columns, s.tableName[0]);
    Parity4(Fragment(SelectClause(columns, s.tableName[0]), s.params), Where(s), Having(s), OrderClause(s.orders), Limit(s));
  }

  /** The head of an INSERT or REPLACE, the pending parameters first. */
  lemma InsertHeadParity(s: BuilderState, op: string, data: Rows)
    requires HeadBalanced(s) && |s.tableName| > 0 && RowsBalanced(data) && '?' !in op
    ensures Parity(Led(s, InsertClause(op, s.queryOptions, s.tableName[0], data)))
  {
    InsertParity(op, s.queryOptions, s.tableName[0], data);
  }

  lemma VerbsUnmarked()
    ensures '?' !in "INSERT" && '?' !in "REPLACE"
  {
  }

  lemma DuplicateFragmentParity(s: BuilderState)
    requires StateBalanced(s)
    ensures Parity(Duplicate(s))
  {
    DuplicateUnmarked(s.onDuplicateColumns, s.lastInsertIdColumn);
    MarksZero(DuplicateClause(s.onDuplicateColumns, s.lastInsertIdColumn));
  }

  /** An INSERT of balanced rows over a balanced state renders one `?` per parameter. */
  lemma InsertStatementParity(s: BuilderState, data: Rows)
    requires StateBalanced(s) && |s.tableName| > 0 && RowsBalanced(data)
    ensures Parity(InsertStatement(s, data))
  {
    FilterParity(s);
    DuplicateFragmentParity(s);
    VerbsUnmarked();
    InsertHeadParity(s, "INSERT", data);
    var f := Led(s, InsertClause("INSERT", s.queryOptions, s.tableName[0], data));
    ThenParity(f, Duplicate(s));
    Parity4(f.Then(Duplicate(s)), Where(s), Having(s), OrderClause(s.orders), Limit(s));
  }

  /** The same for a batch INSERT, which has no LIMIT. */
  lemma InsertMultiParity(s: BuilderState, data: Rows)
    requires StateBalanced(s) && |s.tableName| > 0 && RowsBalanced(data)
    ensures Parity(InsertMultiStatement(s, data))
  {
    FilterParity(s);
    DuplicateFragmentParity(s);
    VerbsUnmarked();
    InsertHeadParity(s, "INSERT", data);
    Parity4(Led(s, InsertClause("INSERT", s.queryOptions, s.tableName[0], data)), Duplicate(s),
            Where(s), Having(s), OrderClause(s.orders));
  }

  /**
   * A REPLACE of balanced rows renders one `?` per parameter; its stored
   * orders and duplicate-key columns play no part, since it renders neither.
   */
  lemma ReplaceParity(s: BuilderState, data: Rows)
    requires HeadBalanced(s) && |s.tableName| > 0 && RowsBalanced(data)
    ensures Parity(ReplaceStatement(s, data))
  {
    WhereParity(s);
    VerbsUnmarked();
    InsertHeadParity(s, "REPLACE", data);
    Parity3(Led(s, InsertClause("REPLACE", s.queryOptions, s.tableName[0], data)), Where(s), Having(s), Limit(s));
  }

  /** An UPDATE of a balanced record over a balanced state renders one `?` per parameter. */
  lemma UpdateStatementParity(s: BuilderState, data: Rows)
    requires BodyBalanced(s) && |s.tableName| > 0 && RowsBalanced(data)
    ensures Parity(UpdateStatement(s, data))
  {
    FilterParity(s);
    UpdateParity(s.tableName[0], data);
    Parity4(Led(s, UpdateClause(s.tableName[0], data)), Where(s), Having(s), OrderClause(s.orders), Limit(s));
  }

  lemma DeleteHeadParity(tables: seq<string>)
    requires Unmarked(tables)
    ensures Marks(DeleteClause(tables)) == 0
  {
    JoinUnmarked(tables, ", ");
    NoMarks(DeleteClause(tables));
  }

  /** A DELETE over a balanced state renders one `?` per parameter. */
  lemma DeleteParity(s: BuilderState)
    requires BodyBalanced(s)
    ensures Parity(DeleteStatement(s))
  {
    FilterParity(s);
    DeleteHeadParity(s.tableName);
    Parity4(Fragment(DeleteClause(s.tableName), s.params), Where(s), Having(s), OrderClause(s.orders), Limit(s));
  }

  // ----- reset -----

  /**
   * After a terminal call, a SELECT on the same builder with only a new
   * table sees no condition, order, limit or parameter of the earlier
   * statement: it is the bare SELECT head.
   */
  lemma SelectAfterClean(s: BuilderState, sql: string, table: seq<string>, columns: seq<string>)
    requires |table| > 0
    ensures var next := Finished(s, sql).(tableName := table);
            Renders(next) && SelectStatement(next, columns) == Fragment(TrimSpace(SelectClause(columns, table[0])), [])
  {
    var next := Finished(s, sql).(tableName := table);
    var head := SelectClause(columns, table[0]);
    assert Where(next) == Empty && Having(next) == Empty && OrderClause(next.orders) == Empty;
    assert Limit(next) == Empty;
    assert head + "" + "" + "" + "" == head;
  }

  /** The same holds for a DELETE: nothing but the table list. */
  lemma DeleteAfterClean(s: BuilderState, sql: string, table: seq<string>)
    ensures var next := Finished(s, sql).(tableName := table);
            Renders(next) && DeleteStatement(next) == Fragment(TrimSpace(DeleteClause(table)), [])
  {
    var next := Finished(s, sql).(tableName := table);
    var head := DeleteClause(table);
    assert Where(next) == Empty && Having(next) == Empty && OrderClause(next.orders) == Empty;
    assert Limit(next) == Empty;
    assert head + "" + "" + "" + "" == head;
  }

  /** Cleaning twice is cleaning once. */
  lemma CleanedIdempotent(s: BuilderState)
    ensures Cleaned(Cleaned(s)) == Cleaned(s)
  {
  }

  // ----- clause order -----

  /**
   * Under the assumed `trim`, a non-empty ORDER BY clause ends without a
   * separator, so the LIMIT that follows it in a SELECT is glued to it: the
   * statement text holds the ORDER BY clause immediately followed by `LIMIT`.
   */
  lemma OrderGluedToLimit(s: BuilderState, columns: seq<string>)
    requires Renders(s) && |s.tableName| > 0 && |s.orders| > 0 && |s.limit| == 1
    ensures var order := OrderClause(s.orders).sql; |order| > 0 && !IsSpace(order[|order| - 1])
    ensures LimitGlued(SelectStatement(s, columns).sql,
                       |SelectClause(columns, s.tableName[0]) + Where(s).sql + Having(s).sql|,
                       OrderClause(s.orders).sql)
  {
    SelectText(s, columns);
    OrderClauseEdges(s.orders);
    SelectHeadStart(columns, s.tableName[0]);
    LimitStart(s.limit);
    GluedSlice(SelectStatement(s, columns).sql, SelectClause(columns, s.tableName[0]), Where(s).sql, Having(s).sql,
               OrderClause(s.orders).sql, LimitClause(s.limit));
  }

  /** From position `i` on, `sql` holds `order` immediately followed by `LIMIT `. */
  predicate LimitGlued(sql: string, i: nat, order: string) {
    |sql| >= i + |order| + 6 && sql[i..i + |order| + 6] == order + "LIMIT "
  }

  /** The SELECT text is the trimmed join of its clauses. */
  lemma SelectText(s: BuilderState, columns: seq<string>)
    requires Renders(s) && |s.tableName| > 0
    ensures SelectStatement(s, columns).sql ==
            TrimSpace(SelectClause(columns, s.tableName[0]) + Where(s).sql + Having(s).sql
                      + OrderClause(s.orders).sql + LimitClause(s.limit))
  {
  }

  lemma SelectHeadStart(columns: seq<string>, table: string)
    ensures |SelectClause(columns, table)| > 0 && SelectClause(columns, table)[0] == 'S'
  {
  }

  /** A one-value LIMIT clause: `LIMIT `, then a character that is not blank. */
  lemma LimitStart(limit: seq<int>)
    requires |limit| == 1
    ensures var lim := LimitClause(limit); |lim| >= 7 && lim[..6] == "LIMIT " && !IsSpace(lim[6])
  {
    var c := limit[0];
    var digits := NatToString(if c < 0 then -c else c);
    assert '0' <= digits[0] <= '9';
  }

  /** `t`, the TrimSpace of `head + w + h + order + lim`, keeps `order` and the `LIMIT ` after it. */
  lemma GluedSlice(t: string, head: string, w: string, h: string, order: string, lim: string)
    requires |head| > 0 && !IsSpace(head[0])
    requires |lim| >= 7 && lim[..6] == "LIMIT " && !IsSpace(lim[6])
    requires t == TrimSpace(head + w + h + order + lim)
    ensures LimitGlued(t, |head + w + h|, order)
  {
    var pre := head + w + h;
    var raw := pre + order + lim;
    var n := |pre| + |order| + 7;
    assert raw[0] == head[0];
    assert raw[n - 1] == lim[6];
    assert TrimLeft(raw) == raw;
    TrimRightKeeps(raw, n);
    assert raw[|pre|..n - 1] == order + lim[..6];
    assert TrimRight(raw)[|pre|..n - 1] == TrimRight(raw)[..n][|pre|..n - 1];
  }

}
