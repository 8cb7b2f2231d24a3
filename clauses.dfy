/**
 * The clause builders that do not depend on conditions: ORDER BY (with the
 * FIELD custom order), LIMIT and pagination, ON DUPLICATE KEY UPDATE, the
 * INSERT / REPLACE head with its column and value lists, the UPDATE SET
 * list, SELECT, DELETE, and the `Now` interval expression.
 */
module Clauses {
  import opened Text
  import opened Values

  /** One `OrderBy(column, args...)` call. */
  datatype Order = Order(column: string, args: seq<Value>)

  /** A Go map in insertion order: the record handed to Insert, Replace or Update. */
  type Record = seq<(string, Value)>

  /** The `data interface{}` of buildInsert / buildUpdate: a map, a slice of maps, or anything else. */
  datatype Rows = One(record: Record) | Many(records: seq<Record>) | Neither

  // ----- `%s` of an ORDER BY direction -----

  /** The values whose `%s` rendering this model spells out: strings, and the bad-verb forms of int, bool and nil. */
  predicate Formattable(v: Value) { v.Str? || v.Int? || v.Bool? || v.Nil? }

  /** `fmt.Sprintf("%s", v)`. */
  function Verb(v: Value): (r: string)
    requires Formattable(v)
    ensures v.Str? ==> r == v.s
  {
    match v
    case Str(s) => s
    case Int(i) => "%!s(int=" + IntToString(i) + ")"
    case Bool(b) => if b then "%!s(bool=true)" else "%!s(bool=false)"
    case Nil => "%!s(<nil>)"
  }

  predicate OrderReady(o: Order) { |o.args| >= 1 ==> Formattable(o.args[0]) }

  predicate OrdersReady(orders: seq<Order>) {
    forall i :: 0 <= i < |orders| ==> OrderReady(orders[i])
  }

  // ----- ORDER BY -----

  /**
   * One ORDER BY entry: the bare column, the column and its direction, or
   * `FIELD (column, <bound list>) direction` for a custom order, which binds
   * the listed values.
   */
  function OrderEntry(o: Order): Fragment
    requires OrderReady(o)
  {
    if |o.args| == 1 then Fragment(o.column + " " + Verb(o.args[0]), [])
    else if |o.args| > 1 then
      var list := BindList(o.args[1..]);
      Fragment("FIELD (" + o.column + ", " + list.sql + ") " + Verb(o.args[0]), list.args)
    else Fragment(o.column, [])
  }

  function EntryTexts(orders: seq<Order>): (r: seq<string>)
    requires OrdersReady(orders)
    ensures |r| == |orders|
  {
    if |orders| == 0 then [] else EntryTexts(orders[..|orders| - 1]) + [OrderEntry(orders[|orders| - 1]).sql]
  }

  function EntryArgs(orders: seq<Order>): seq<Value>
    requires OrdersReady(orders)
  {
    if |orders| == 0 then [] else EntryArgs(orders[..|orders| - 1]) + OrderEntry(orders[|orders| - 1]).args
  }

  /** `buildOrderBy`: nothing without orders, else `ORDER BY` and the entries joined by ", ", in call order. */
  function OrderClause(orders: seq<Order>): (f: Fragment)
    requires OrdersReady(orders)
    ensures |orders| == 0 ==> f == Empty
  {
    if |orders| == 0 then Empty
    else Fragment(TrimSpace("ORDER BY " + Join(EntryTexts(orders), ", ")), EntryArgs(orders))
  }

  // ----- LIMIT and pagination -----

  /** `buildLimit`: zero, one or two stored integers, written in decimal. */
  function LimitClause(limit: seq<int>): string {
    if |limit| == 1 then "LIMIT " + IntToString(limit[0]) + " "
    else if |limit| == 2 then "LIMIT " + IntToString(limit[0]) + ", " + IntToString(limit[1]) + " "
    else ""
  }

  /** What `Limit(count, to...)` stores. */
  function LimitValues(count: int, to: seq<int>): (r: seq<int>)
    ensures |to| == 0 ==> r == [count]
    ensures |to| > 0 ==> r == [count, to[0]]
  {
    if |to| == 0 then [count] else [count, to[0]]
  }

  /** The offset and row count `Paginate(page)` stores. */
  function PageWindow(pageLimit: int, page: int): (r: seq<int>)
    ensures |r| == 2 && r[1] == pageLimit
  {
    [pageLimit * (page - 1), pageLimit]
  }

  /** Go's `/` on int, which truncates toward zero. */
  function TruncDiv(a: int, b: int): int
    requires b != 0
  {
    var q := Abs(a) / Abs(b);
    if (a < 0) != (b < 0) then -q else q
  }

  function Abs(a: int): nat {
    if a < 0 then -a else a
  }

  // ----- ON DUPLICATE KEY UPDATE -----

  function LeadIn(lastId: string): seq<string> {
    if lastId != "" then [lastId + "=LAST_INSERT_ID(" + lastId + ")"] else []
  }

  function DuplicateParts(cols: seq<string>): (r: seq<string>)
    ensures |r| == |cols|
  {
    if |cols| == 0 then [] else DuplicateParts(cols[..|cols| - 1]) + [cols[|cols| - 1] + " = VALUE(" + cols[|cols| - 1] + ")"]
  }

  /**
   * `buildDuplicate`: nothing without columns, else `ON DUPLICATE KEY UPDATE`,
   * the LAST_INSERT_ID assignment when a column is configured, and one
   * `col = VALUE(col)` per column.
   */
  function DuplicateClause(cols: seq<string>, lastId: string): (r: string)
    ensures |cols| == 0 ==> r == ""
  {
    if |cols| == 0 then ""
    else TrimSpace("ON DUPLICATE KEY UPDATE " + Join(LeadIn(lastId) + DuplicateParts(cols), ", "))
  }

  // ----- INSERT / REPLACE -----

  function Names(r: Record): (ns: seq<string>)
    ensures |ns| == |r|
  {
    if |r| == 0 then [] else Names(r[..|r| - 1]) + [r[|r| - 1].0]
  }

  function Entries(r: Record): (vs: seq<Value>)
    ensures |vs| == |r|
  {
    if |r| == 0 then [] else Entries(r[..|r| - 1]) + [r[|r| - 1].1]
  }

  /** One parenthesised value tuple: the record's values bound in order. */
  function Tuple(r: Record): Fragment {
    var list := BindList(Entries(r));
    Fragment("(" + list.sql + ")", list.args)
  }

  function TupleTexts(rs: seq<Record>): (r: seq<string>)
    ensures |r| == |rs|
  {
    if |rs| == 0 then [] else TupleTexts(rs[..|rs| - 1]) + [Tuple(rs[|rs| - 1]).sql]
  }

  function TupleArgs(rs: seq<Record>): seq<Value> {
    if |rs| == 0 then [] else TupleArgs(rs[..|rs| - 1]) + Tuple(rs[|rs| - 1]).args
  }

  /** The column list: a single record's keys, or the first record's keys of a batch. */
  function ColumnList(data: Rows): string {
    match data
    case One(r) => TrimSpace(Join(Names(r), ", "))
    case Many(rs) => if |rs| == 0 then "" else TrimSpace(Join(Names(rs[0]), ", "))
    case Neither => ""
  }

  /** The VALUES list and what binding it appends. */
  function ValueList(data: Rows): Fragment {
    match data
    case One(r) => Tuple(r)
    case Many(rs) => Fragment(TrimSpace(Join(TupleTexts(rs), ", ")), TupleArgs(rs))
    case Neither => Empty
  }

  /** The query options followed by a space, when there are any. */
  function OptionsText(opts: seq<string>): string {
    if |opts| > 0 then Join(opts, ", ") + " " else ""
  }

  /** `buildInsert(operator, data)`: `<op> <options>INTO <table> (<columns>) VALUES <values> `. */
  function InsertClause(op: string, opts: seq<string>, table: string, data: Rows): Fragment {
    var values := ValueList(data);
    Fragment(op + " " + OptionsText(opts) + "INTO " + table + " (" + ColumnList(data) + ") VALUES " + values.sql + " ",
             values.args)
  }

  // ----- UPDATE -----

  function Assignments(r: Record): (sets: seq<string>)
    ensures |sets| == |r|
  {
    if |r| == 0 then [] else Assignments(r[..|r| - 1]) + [r[|r| - 1].0 + " = " + ParamToQuery(r[|r| - 1].1)]
  }

  /** `buildUpdate(data)`: `UPDATE <table> SET col = <bound value>, ... `; only a single map assigns anything. */
  function UpdateClause(table: string, data: Rows): Fragment {
    var pairs := if data.One? then TrimSpace(Join(Assignments(data.record), ", ")) else "";
    Fragment("UPDATE " + table + " SET " + pairs + " ", if data.One? then BoundAll(Entries(data.record)) else [])
  }

  // ----- SELECT and DELETE -----

  /** `buildSelect(columns...)`. */
  function SelectClause(columns: seq<string>, table: string): string {
    if |columns| == 0 then "SELECT * FROM " + table + " "
    else "SELECT " + Join(columns, ", ") + " FROM " + table + " "
  }

  /** `buildDelete(tables...)`. */
  function DeleteClause(tables: seq<string>): string {
    "DELETE FROM " + Join(tables, ", ") + " "
  }

  // ----- Now -----

  /** An interval token `<sign><digits><unit letter>`: at least a sign and a unit. */
  predicate Token(t: string) {
    |t| >= 2
  }

  /** The unit map of `Now`; a letter it does not hold gives Go's zero value "". */
  function UnitName(c: char): string {
    if c == 'Y' then "YEAR"
    else if c == 'M' then "MONTH"
    else if c == 'D' then "DAY"
    else if c == 'W' then "WEEK"
    else if c == 'h' then "HOUR"
    else if c == 'm' then "MINUTE"
    else if c == 's' then "SECOND"
    else ""
  }

  /** `<sign> INTERVAL <n> <UNIT>` for one token. */
  function IntervalText(t: string): string
    requires Token(t)
  {
    [t[0]] + " INTERVAL " + t[1..|t| - 1] + " " + UnitName(t[|t| - 1])
  }

  function Interval(t: string): string
    requires Token(t)
  {
    IntervalText(t) + " "
  }

  predicate Tokens(ts: seq<string>) {
    forall i :: 0 <= i < |ts| ==> Token(ts[i])
  }

  function Intervals(ts: seq<string>): string
    requires Tokens(ts)
  {
    if |ts| == 0 then "" else Intervals(ts[..|ts| - 1]) + Interval(ts[|ts| - 1])
  }

  /** `Now(formats...)`: a function value with `NOW()` and one interval per token, binding nothing. */
  function Now(ts: seq<string>): (f: Value)
    requires Tokens(ts)
    ensures f.Func? && f.values == []
    ensures f.query == TrimSpace("NOW() " + Intervals(ts))
  {
    MakeFunc(TrimSpace("NOW() " + Intervals(ts)), [])
  }

  // ----- ORDER BY: parity and the clause's edges -----

  /** An entry whose column and direction hold no `?` and whose FIELD list binds balanced values. */
  predicate OrderBalanced(o: Order) {
    && OrderReady(o)
    && '?' !in o.column
    && (|o.args| >= 1 ==> '?' !in Verb(o.args[0]))
    && (|o.args| > 1 ==> AllBalanced(o.args[1..]))
  }

  predicate OrdersBalanced(orders: seq<Order>) {
    forall i :: 0 <= i < |orders| ==> OrderBalanced(orders[i])
  }

  lemma EntryParity(o: Order)
    requires OrderBalanced(o)
    ensures Marks(OrderEntry(o).sql) == |OrderEntry(o).args|
  {
    if |o.args| == 1 {
      NoMarks(o.column + " " + Verb(o.args[0]));
    } else if |o.args| > 1 {
      FieldParity(o);
    } else {
      NoMarks(o.column);
    }
  }

  lemma FieldParity(o: Order)
    requires OrderBalanced(o) && |o.args| > 1
    ensures Marks(OrderEntry(o).sql) == |OrderEntry(o).args|
  {
    var list := BindList(o.args[1..]);
    BindListParity(o.args[1..]);
    var direction := Verb(o.args[0]);
    var head, tail := "FIELD (" + o.column + ", ", ") " + direction;
    assert OrderEntry(o) == Fragment(head + list.sql + tail, list.args);
    NoMarks(head);
    NoMarks(tail);
    Marks3(head, list.sql, tail);
  }

  lemma {:induction false} EntriesParity(orders: seq<Order>)
    requires OrdersReady(orders) && OrdersBalanced(orders)
    ensures SumMarks(EntryTexts(orders)) == |EntryArgs(orders)|
  {
    if |orders| > 0 {
      var front := orders[..|orders| - 1];
      assert EntryTexts(orders)[..|orders| - 1] == EntryTexts(front);
      EntriesParity(front);
      EntryParity(orders[|orders| - 1]);
    }
  }

  /** An ORDER BY clause over balanced entries holds one `?` per FIELD value it binds. */
  lemma OrderParity(orders: seq<Order>)
    requires OrdersReady(orders) && OrdersBalanced(orders)
    ensures Marks(OrderClause(orders).sql) == |OrderClause(orders).args|
  {
    if |orders| > 0 {
      var texts := EntryTexts(orders);
      EntriesParity(orders);
      OrderWordsUnmarked();
      JoinMarks(texts, ", ", SumMarks(texts));
      MarksCat("ORDER BY ", Join(texts, ", "));
      TrimSpaceMarks("ORDER BY " + Join(texts, ", "));
    } else {
      NoMarks("");
    }
  }

  lemma OrderWordsUnmarked()
    ensures Marks("ORDER BY ") == 0 && Marks(", ") == 0
  {
    NoMarks("ORDER BY ");
    NoMarks(", ");
  }

  /**
   * A non-empty ORDER BY clause starts with its keyword and ends in a
   * character that is not white space: the clause that follows it in a
   * statement is glued to it without a separator.
   */
  lemma OrderClauseEdges(orders: seq<Order>)
    requires OrdersReady(orders) && |orders| > 0
    ensures |OrderClause(orders).sql| >= 8 && OrderClause(orders).sql[..8] == "ORDER BY"
    ensures !IsSpace(OrderClause(orders).sql[|OrderClause(orders).sql| - 1])
  {
    var s := "ORDER BY " + Join(EntryTexts(orders), ", ");
    assert s[0] == 'O' && s[7] == 'Y' && s[..8] == "ORDER BY";
    assert TrimLeft(s) == s;
    TrimRightKeeps(s, 8);
    TrimSpaceEdges(s);
  }

  // ----- ON DUPLICATE KEY UPDATE -----

  /**
   * The ON DUPLICATE KEY clause ends in the `)` of its last `VALUE(col)`, so
   * TrimSpace removes nothing and the clause after it is glued to it.
   */
  lemma DuplicateUntrimmed(cols: seq<string>, lastId: string)
    requires |cols| > 0
    ensures DuplicateClause(cols, lastId) == "ON DUPLICATE KEY UPDATE " + Join(LeadIn(lastId) + DuplicateParts(cols), ", ")
    ensures DuplicateClause(cols, lastId)[|DuplicateClause(cols, lastId)| - 1] == ')'
  {
    var parts := LeadIn(lastId) + DuplicateParts(cols);
    var c := cols[|cols| - 1];
    assert parts[|parts| - 1] == c + " = VALUE(" + c + ")";
    JoinLast(parts, ", ");
    var s := "ON DUPLICATE KEY UPDATE " + Join(parts, ", ");
    assert s[|s| - 1] == ')';
    TrimSpaceKeeps(s);
  }

  /** With column names free of `?`, the ON DUPLICATE KEY clause holds no `?`: it binds nothing. */
  lemma DuplicateUnmarked(cols: seq<string>, lastId: string)
    requires Unmarked(cols) && '?' !in lastId
    ensures '?' !in DuplicateClause(cols, lastId)
  {
    if |cols| > 0 {
      var parts := LeadIn(lastId) + DuplicateParts(cols);
      DuplicatePartsUnmarked(cols);
      assert Unmarked(parts);
      JoinUnmarked(parts, ", ");
      var text := "ON DUPLICATE KEY UPDATE " + Join(parts, ", ");
      MarksZero(text);
      TrimSpaceMarks(text);
      MarksZero(TrimSpace(text));
    }
  }

  lemma {:induction false} DuplicatePartsUnmarked(cols: seq<string>)
    requires Unmarked(cols)
    ensures Unmarked(DuplicateParts(cols))
  {
    if |cols| > 0 {
      DuplicatePartsUnmarked(cols[..|cols| - 1]);
    }
  }

  /** The LAST_INSERT_ID assignment, when configured, comes first. */
  lemma DuplicateLeadsWithLastId(cols: seq<string>, lastId: string)
    requires |cols| > 0 && lastId != ""
    ensures (LeadIn(lastId) + DuplicateParts(cols))[0] == lastId + "=LAST_INSERT_ID(" + lastId + ")"
    ensures (LeadIn(lastId) + DuplicateParts(cols))[1..] == DuplicateParts(cols)
  {
  }

  // ----- LIMIT and pagination -----

  /** LIMIT writes its integers into the text: it binds nothing and holds no `?`. */
  lemma LimitUnmarked(limit: seq<int>)
    ensures '?' !in LimitClause(limit)
  {
    if |limit| == 1 || |limit| == 2 {
      IntRoundTrip(limit[0]);
      MarksZero(IntToString(limit[0]));
    }
    if |limit| == 2 {
      IntRoundTrip(limit[1]);
      MarksZero(IntToString(limit[1]));
    }
  }

  /** The count written by `Limit(c)` reads back as c. */
  lemma LimitReadsBack(c: int)
    ensures var t := LimitClause([c]); |t| >= 7 && t[..6] == "LIMIT " && t[|t| - 1] == ' ' && IntValue(t[6..|t| - 1]) == c
  {
    var t := LimitClause([c]);
    assert t[6..|t| - 1] == IntToString(c);
    IntRoundTrip(c);
  }

  /** `Limit(5)` renders `LIMIT 5` and `Limit(5, 10)` renders `LIMIT 5, 10`, each followed by the clause separator. */
  lemma LimitExamples()
    ensures LimitClause(LimitValues(5, [])) == "LIMIT 5 "
    ensures LimitClause(LimitValues(5, [10])) == "LIMIT 5, 10 "
  {
    assert IntToString(5) == "5";
    assert IntToString(10) == "10" by {
      assert NatToString(10) == NatToString(1) + [DigitChar(0)];
    }
  }

  /** Go's truncating division: the remainder is smaller than the divisor and carries the dividend's sign. */
  lemma TruncDivSpec(a: int, b: int)
    requires b != 0
    ensures var r := a - TruncDiv(a, b) * b; Abs(r) < Abs(b) && (a >= 0 ==> r >= 0) && (a < 0 ==> r <= 0)
  {
    var q0, r0 := Abs(a) / Abs(b), Abs(a) % Abs(b);
    assert Abs(a) == q0 * Abs(b) + r0;
    if b < 0 {
      assert q0 * b == -(q0 * Abs(b));
    }
  }

  /** Consecutive pages are consecutive windows: page p + 1 starts where page p ends, page 1 at offset 0. */
  lemma PageWindowsTile(pageLimit: int, page: int)
    ensures PageWindow(pageLimit, 1)[0] == 0
    ensures PageWindow(pageLimit, page + 1)[0] == PageWindow(pageLimit, page)[0] + pageLimit
  {
    assert pageLimit * page == pageLimit * (page - 1) + pageLimit;
  }

  /** Page size 10, page 3, 95 rows counted: `LIMIT 20, 10` and 9 pages. */
  lemma PaginationExample()
    ensures PageWindow(10, 3) == [20, 10]
    ensures LimitClause(PageWindow(10, 3)) == "LIMIT 20, 10 "
    ensures TruncDiv(95, 10) == 9
  {
    assert IntToString(20) == "20" by {
      assert NatToString(20) == NatToString(2) + [DigitChar(0)];
    }
    assert IntToString(10) == "10" by {
      assert NatToString(10) == NatToString(1) + [DigitChar(0)];
    }
  }

  // ----- INSERT / UPDATE -----

  /** A record's keys and values, read back in the record's own order. */
  lemma {:induction false} RecordSplit(r: Record)
    ensures forall k :: 0 <= k < |r| ==> (Names(r)[k], Entries(r)[k]) == r[k]
  {
    if |r| > 0 {
      RecordSplit(r[..|r| - 1]);
    }
  }

  predicate Unmarked(parts: seq<string>) {
    forall k :: 0 <= k < |parts| ==> '?' !in parts[k]
  }

  /** A record whose keys hold no `?` and whose values are balanced. */
  predicate RecordBalanced(r: Record) {
    Unmarked(Names(r)) && AllBalanced(Entries(r))
  }

  predicate RowsBalanced(data: Rows) {
    match data
    case One(r) => RecordBalanced(r)
    case Many(rs) => forall i :: 0 <= i < |rs| ==> RecordBalanced(rs[i])
    case Neither => true
  }

  lemma TupleParity(r: Record)
    requires AllBalanced(Entries(r))
    ensures Marks(Tuple(r).sql) == |Tuple(r).args|
  {
    BindListParity(Entries(r));
    NoMarks("(");
    NoMarks(")");
    Marks3("(", BindList(Entries(r)).sql, ")");
  }

  lemma {:induction false} TuplesParity(rs: seq<Record>)
    requires forall i :: 0 <= i < |rs| ==> RecordBalanced(rs[i])
    ensures SumMarks(TupleTexts(rs)) == |TupleArgs(rs)|
  {
    if |rs| > 0 {
      var front := rs[..|rs| - 1];
      assert TupleTexts(rs)[..|rs| - 1] == TupleTexts(front);
      TuplesParity(front);
      TupleParity(rs[|rs| - 1]);
    }
  }

  lemma ValueListParity(data: Rows)
    requires RowsBalanced(data)
    ensures Marks(ValueList(data).sql) == |ValueList(data).args|
  {
    match data
    case One(r) => TupleParity(r);
    case Many(rs) =>
      TuplesParity(rs);
      NoMarks(", ");
      JoinMarks(TupleTexts(rs), ", ", SumMarks(TupleTexts(rs)));
      TrimSpaceMarks(Join(TupleTexts(rs), ", "));
    case Neither => NoMarks("");
  }

  lemma ColumnListUnmarked(data: Rows)
    requires RowsBalanced(data)
    ensures '?' !in ColumnList(data)
  {
    var names := if data.One? then Names(data.record) else if data.Many? && |data.records| > 0 then Names(data.records[0]) else [];
    JoinUnmarked(names, ", ");
    MarksZero(Join(names, ", "));
    TrimSpaceMarks(Join(names, ", "));
    MarksZero(TrimSpace(Join(names, ", ")));
    assert data.Neither? || (data.Many? && |data.records| == 0) || ColumnList(data) == TrimSpace(Join(names, ", "));
  }

  /**
   * An INSERT or REPLACE head over balanced rows, with no `?` in the
   * operator, the options, the table or the column names, holds one `?` per
   * parameter it binds.
   */
  lemma InsertParity(op: string, opts: seq<string>, table: string, data: Rows)
    requires '?' !in op && Unmarked(opts) && '?' !in table && RowsBalanced(data)
    ensures Marks(InsertClause(op, opts, table, data).sql) == |InsertClause(op, opts, table, data).args|
  {
    JoinUnmarked(opts, ", ");
    ColumnListUnmarked(data);
    var head := op + " " + OptionsText(opts) + "INTO " + table + " (" + ColumnList(data) + ") VALUES ";
    NoMarks(head);
    NoMarks(" ");
    ValueListParity(data);
    Marks3(head, ValueList(data).sql, " ");
  }

  lemma {:induction false} AssignmentsParity(r: Record)
    requires RecordBalanced(r)
    ensures SumMarks(Assignments(r)) == |BoundAll(Entries(r))|
  {
    if |r| > 0 {
      var front := r[..|r| - 1];
      var (col, v) := r[|r| - 1];
      RecordFront(r);
      AssignmentsParity(front);
      AssignmentMarks(col, v);
      assert Assignments(r)[..|r| - 1] == Assignments(front);
    }
  }

  /** The front of a balanced record is balanced, and so is its last key and value. */
  lemma RecordFront(r: Record)
    requires RecordBalanced(r) && |r| > 0
    ensures RecordBalanced(r[..|r| - 1])
    ensures '?' !in r[|r| - 1].0 && Balanced(r[|r| - 1].1)
    ensures BoundAll(Entries(r)) == BoundAll(Entries(r[..|r| - 1])) + Bound(r[|r| - 1].1)
  {
    var front := r[..|r| - 1];
    assert Names(r)[..|r| - 1] == Names(front) && Entries(r)[..|r| - 1] == Entries(front);
    assert Names(r)[|r| - 1] == r[|r| - 1].0 && Entries(r)[|r| - 1] == r[|r| - 1].1;
  }

  /** One `col = <placeholder>` holds the placeholders of its value alone. */
  lemma AssignmentMarks(col: string, v: Value)
    requires '?' !in col && Balanced(v)
    ensures Marks(col + " = " + ParamToQuery(v)) == |Bound(v)|
  {
    BindParity(v);
    NoMarks(col + " = ");
    MarksCat(col + " = ", ParamToQuery(v));
  }

  /** An UPDATE SET list over a balanced record holds one `?` per parameter it binds. */
  lemma UpdateParity(table: string, data: Rows)
    requires '?' !in table && RowsBalanced(data)
    ensures Marks(UpdateClause(table, data).sql) == |UpdateClause(table, data).args|
  {
    var parts := if data.One? then Assignments(data.record) else [];
    if data.One? {
      AssignmentsParity(data.record);
    }
    NoMarks(", ");
    JoinMarks(parts, ", ", SumMarks(parts));
    TrimSpaceMarks(Join(parts, ", "));
    var head := "UPDATE " + table + " SET ";
    NoMarks(head);
    NoMarks(" ");
    NoMarks("");
    Marks3(head, TrimSpace(Join(parts, ", ")), " ");
  }

  // ----- Now -----

  predicate KnownUnits(ts: seq<string>)
    requires Tokens(ts)
  {
    forall i :: 0 <= i < |ts| ==> KnownUnit(ts[i])
  }

  /** A token whose unit letter the map of `Now` holds. */
  predicate KnownUnit(t: string)
    requires Token(t)
  {
    UnitName(t[|t| - 1]) != ""
  }

  lemma IntervalEdge(t: string)
    requires Token(t) && KnownUnit(t)
    ensures |IntervalText(t)| > 0 && 'A' <= IntervalText(t)[|IntervalText(t)| - 1] <= 'Z'
    ensures var u := UnitName(t[|t| - 1]);
            |IntervalText(t)| >= |u| && IntervalText(t)[|IntervalText(t)| - |u|..] == u
  {
    var u := UnitName(t[|t| - 1]);
    assert 'A' <= u[|u| - 1] <= 'Z';
    assert IntervalText(t)[|IntervalText(t)| - 1] == u[|u| - 1];
  }

  /**
   * With known unit letters, `Now` is `NOW()` followed by
   * `<sign> INTERVAL <n> <UNIT>` per token, each piece separated by one
   * space: TrimSpace drops exactly the final space.
   */
  lemma NowForm(ts: seq<string>)
    requires Tokens(ts) && KnownUnits(ts) && |ts| > 0
    ensures Now(ts).query + " " == "NOW() " + Intervals(ts)
  {
    IntervalsTrimmed("NOW() ", ts);
  }

  lemma IntervalsTrimmed(head: string, ts: seq<string>)
    requires |head| > 0 && !IsSpace(head[0])
    requires Tokens(ts) && KnownUnits(ts) && |ts| > 0
    ensures TrimSpace(head + Intervals(ts)) + " " == head + Intervals(ts)
  {
    var front := ts[..|ts| - 1];
    var t := ts[|ts| - 1];
    var a, piece := head + Intervals(front), IntervalText(t);
    IntervalsSnoc(head, ts);
    assert a[0] == head[0];
    assert KnownUnit(t);
    IntervalEdge(t);
    CapitalNotSpace(piece[|piece| - 1]);
    DropFinalSpace(a, piece);
  }

  lemma IntervalsSnoc(head: string, ts: seq<string>)
    requires Tokens(ts) && |ts| > 0
    ensures head + Intervals(ts) == (head + Intervals(ts[..|ts| - 1])) + (IntervalText(ts[|ts| - 1]) + " ")
  {
  }

  lemma CapitalNotSpace(c: char)
    requires 'A' <= c <= 'Z'
    ensures !IsSpace(c)
  {
  }

  /** Without tokens `Now` is the bare `NOW()`. */
  lemma NowPlain()
    ensures Now([]).query == "NOW()"
  {
    TrimSpaceDropsTrailing("NOW()", " ");
    assert "NOW() " + Intervals([]) == "NOW()" + " ";
  }

  lemma DropFinalSpace(a: string, piece: string)
    requires |a| > 0 && !IsSpace(a[0]) && |piece| > 0 && !IsSpace(piece[|piece| - 1])
    ensures TrimSpace(a + (piece + " ")) + " " == a + (piece + " ")
  {
    var body := a + piece;
    assert a + (piece + " ") == body + " ";
    TrimSpaceDropsTrailing(body, " ");
  }
}
