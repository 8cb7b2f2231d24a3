/**
 * The `Wrapper` itself: a mutable builder whose fluent calls store tables,
 * conditions, orders and limits, and whose terminal calls render the whole
 * statement from them, bind its parameters, record it as the last query and
 * reset the per-statement fields.
 *
 * Every method is specified against the value-level model: a clause builder
 * returns the text of its specification function and appends exactly that
 * function's parameters to `params`; a terminal call returns the statement
 * of `Statements` and leaves the `Finished` state.
 */
module Builder {
  import opened Text
  import opened Values
  import opened Conditions
  import opened Clauses
  import opened Statements

  // ----- one loop step, for the accumulation loops below -----

  /** Placeholders and bindings of a list prefix extended by its next value. */
  lemma BindStep(vs: seq<Value>, i: nat)
    requires i < |vs|
    ensures Placeholders(vs[..i + 1]) == Placeholders(vs[..i]) + [ParamToQuery(vs[i])]
    ensures BoundAll(vs[..i + 1]) == BoundAll(vs[..i]) + Bound(vs[i])
  {
    assert vs[..i + 1][..i] == vs[..i];
  }

  lemma BindSnoc(vs: seq<Value>, v: Value)
    ensures Placeholders(vs + [v]) == Placeholders(vs) + [ParamToQuery(v)]
    ensures BoundAll(vs + [v]) == BoundAll(vs) + Bound(v)
  {
    assert (vs + [v])[..|vs|] == vs;
  }

  /** Binding more values after a prefix of them: the parameter stream grows by concatenation. */
  lemma Grow(start: seq<Value>, done: seq<Value>, next: seq<Value>)
    ensures (start + done) + next == start + (done + next)
  {
  }

  lemma TerminatedSnoc(parts: seq<string>, p: string)
    ensures Terminated(parts + [p]) == Terminated(parts) + p + ", "
  {
    assert (parts + [p])[..|parts|] == parts;
  }

  /** Appending one more part and its ", " to an accumulated text. */
  lemma Extend(prefix: string, parts: seq<string>, p: string)
    ensures prefix + Terminated(parts + [p]) == prefix + Terminated(parts) + p + ", "
  {
    assert (parts + [p])[..|parts|] == parts;
    var t := Terminated(parts);
    assert prefix + (t + p + ", ") == prefix + t + p + ", ";
  }

  /** `trim` of a ", "-terminated list of parts, with nothing before it. */
  lemma TrimList(parts: seq<string>)
    ensures Trim(Terminated(parts)) == TrimSpace(Join(parts, ", "))
  {
    TrimTerminated("", parts);
    assert "" + Terminated(parts) == Terminated(parts);
    assert "" + Join(parts, ", ") == Join(parts, ", ");
  }

  lemma ChainStep(conds: seq<Condition>, i: nat)
    requires i < |conds| && AllRenderable(conds)
    ensures Chain(conds[..i + 1]) == Chain(conds[..i]).Then(Link(conds[i], i == 0))
  {
    assert conds[..i + 1][..i] == conds[..i];
  }

  lemma EntryStep(os: seq<Order>, i: nat)
    requires i < |os| && OrdersReady(os)
    ensures EntryTexts(os[..i + 1]) == EntryTexts(os[..i]) + [OrderEntry(os[i]).sql]
    ensures EntryArgs(os[..i + 1]) == EntryArgs(os[..i]) + OrderEntry(os[i]).args
  {
    assert os[..i + 1][..i] == os[..i];
  }

  lemma DuplicateStep(lead: seq<string>, cols: seq<string>, i: nat)
    requires i < |cols|
    ensures lead + DuplicateParts(cols[..i + 1]) == (lead + DuplicateParts(cols[..i])) + [cols[i] + " = VALUE(" + cols[i] + ")"]
  {
    assert cols[..i + 1][..i] == cols[..i];
  }

  lemma RowStep(r: Record, i: nat)
    requires i < |r|
    ensures Names(r[..i + 1]) == Names(r[..i]) + [r[i].0]
    ensures Entries(r[..i + 1]) == Entries(r[..i]) + [r[i].1]
    ensures Assignments(r[..i + 1]) == Assignments(r[..i]) + [r[i].0 + " = " + ParamToQuery(r[i].1)]
  {
    assert r[..i + 1][..i] == r[..i];
  }

  lemma TupleStep(rs: seq<Record>, j: nat)
    requires j < |rs|
    ensures TupleTexts(rs[..j + 1]) == TupleTexts(rs[..j]) + [Tuple(rs[j]).sql]
    ensures TupleArgs(rs[..j + 1]) == TupleArgs(rs[..j]) + Tuple(rs[j]).args
  {
    assert rs[..j + 1][..j] == rs[..j];
  }

  /** One pass of the `bindParams` loop: the next placeholder and its values appended. */
  lemma ParamStep(start: seq<Value>, items: seq<Value>, i: nat, q: string)
    requires i < |items| && q == Terminated(Placeholders(items[..i]))
    ensures q + ParamToQuery(items[i]) + ", " == Terminated(Placeholders(items[..i + 1]))
    ensures start + BoundAll(items[..i]) + Bound(items[i]) == start + BoundAll(items[..i + 1])
  {
    BindStep(items, i);
    TerminatedSnoc(Placeholders(items[..i]), ParamToQuery(items[i]));
    Grow(start, BoundAll(items[..i]), Bound(items[i]));
  }

  /** One pass of the `buildUpdate` loop: the next assignment and its value appended. */
  lemma AssignStep(start: seq<Value>, r: Record, i: nat, pairs: string)
    requires i < |r| && pairs == Terminated(Assignments(r[..i]))
    ensures pairs + (r[i].0 + " = " + ParamToQuery(r[i].1)) + ", " == Terminated(Assignments(r[..i + 1]))
    ensures start + BoundAll(Entries(r[..i])) + Bound(r[i].1) == start + BoundAll(Entries(r[..i + 1]))
  {
    RowStep(r, i);
    BindSnoc(Entries(r[..i]), r[i].1);
    TerminatedSnoc(Assignments(r[..i]), r[i].0 + " = " + ParamToQuery(r[i].1));
    Grow(start, BoundAll(Entries(r[..i])), Bound(r[i].1));
  }

  /** One pass of the batch loop of `bindValues`: the next tuple and its values appended. */
  lemma BatchStep(start: seq<Value>, rs: seq<Record>, j: nat, values: string)
    requires j < |rs| && values == Terminated(TupleTexts(rs[..j]))
    ensures values + Tuple(rs[j]).sql + ", " == Terminated(TupleTexts(rs[..j + 1]))
    ensures start + TupleArgs(rs[..j]) + Tuple(rs[j]).args == start + TupleArgs(rs[..j + 1])
  {
    TupleStep(rs, j);
    TerminatedSnoc(TupleTexts(rs[..j]), Tuple(rs[j]).sql);
    Grow(start, TupleArgs(rs[..j]), Tuple(rs[j]).args);
  }

  /** A terminal call's own rendering (query and params) is wiped by the clean that ends it. */
  lemma FinishedResets(s: BuilderState, prior: BuilderState, sql: string)
    requires prior.queryOptions == s.queryOptions && prior.onDuplicateColumns == s.onDuplicateColumns
    requires prior.lastInsertIdColumn == s.lastInsertIdColumn
    requires prior.totalCount == s.totalCount && prior.pageLimit == s.pageLimit && prior.totalPage == s.totalPage
    ensures Finished(prior, sql) == Finished(s, sql)
  {
  }

  class Wrapper {
    var query: string
    var tableName: seq<string>
    var conditions: seq<Condition>
    var havingConditions: seq<Condition>
    var queryOptions: seq<string>
    var params: seq<Value>
    var onDuplicateColumns: seq<string>
    var lastInsertIdColumn: string
    var limit: seq<int>
    var orders: seq<Order>
    var totalCount: int
    var pageLimit: int
    var totalPage: int
    var lastQuery: string

    /** The builder's fields as one value. */
    function State(): BuilderState
      reads this
    {
      BuilderState(query, tableName, conditions, havingConditions, queryOptions, params,
                   onDuplicateColumns, lastInsertIdColumn, limit, orders,
                   totalCount, pageLimit, totalPage, lastQuery)
    }

    constructor ()
      ensures State() == Initial
    {
      query, tableName, conditions, havingConditions := "", [], [], [];
      queryOptions, params, onDuplicateColumns, lastInsertIdColumn := [], [], [], "";
      limit, orders := [], [];
      totalCount, pageLimit, totalPage, lastQuery := 0, 0, 0, "";
    }

    /** `clean`: reset the per-statement fields. */
    method Clean()
      modifies this
      ensures State() == Cleaned(old(State()))
    {
      ResetTarget();
      ResetFilters();
      ResetTail();
    }

    /** The table list, the query text and its parameters of `clean`. */
    method ResetTarget()
      modifies this
      ensures State() == old(State()).(tableName := [], query := "", params := [])
    {
      tableName, query, params := [], "", [];
    }

    /** The WHERE and HAVING lists of `clean`. */
    method ResetFilters()
      modifies this
      ensures State() == old(State()).(conditions := [], havingConditions := [])
    {
      conditions, havingConditions := [], [];
    }

    /** The ORDER BY list and the LIMIT values of `clean`. */
    method ResetTail()
      modifies this
      ensures State() == old(State()).(orders := [], limit := [])
    {
      orders, limit := [], [];
    }

    // ----- binding -----

    /** `bindParam`: append what the value binds and return its placeholder text. */
    method BindParam(data: Value) returns (param: string)
      modifies this`params
      ensures param == ParamToQuery(data)
      ensures params == old(params) + Bound(data)
    {
      match data {
        case Sub(_, ps) =>
          if |ps| > 0 {
            params := params + ps;
          }
        case Func(_, vs) =>
          if |vs| > 0 {
            params := params + vs;
          }
        case _ =>
          params := params + [data];
      }
      param := ParamToQuery(data);
    }

    /** `bindParams`: bind every element of a slice in order and join the placeholders. */
    method BindParams(data: Value) returns (q: string)
      modifies this`params
      ensures q == BindList(Elements(data)).sql
      ensures params == old(params) + BindList(Elements(data)).args
    {
      var items := Elements(data);
      q := "";
      var i := 0;
      while i < |items|
        invariant 0 <= i <= |items|
        invariant q == Terminated(Placeholders(items[..i]))
        invariant params == old(params) + BoundAll(items[..i])
      {
        var p := BindParam(items[i]);
        ParamStep(old(params), items, i, q);
        q := q + p + ", ";
        i := i + 1;
      }
      assert items[..i] == items;
      TrimList(Placeholders(items));
      q := Trim(q);
    }

    // ----- WHERE and HAVING -----

    /** One stored condition of `buildWhere`, dispatched on its argument count and shape. */
    method BuildCondition(args: seq<Value>) returns (q: string)
      requires Renderable(args)
      modifies this`params
      ensures q == RenderCondition(args).sql
      ensures params == old(params) + RenderCondition(args).args
    {
      var typ := ShapeOf(args);
      if |args| == 1 {
        q := args[0].s + " ";
      } else if |args| == 2 {
        if typ == Shape.RawQuery {
          q := args[0].s + " ";
          var _ := BindParam(args[1]);
        } else if typ == ColumnName {
          var p := BindParam(args[1]);
          q := args[0].s + " = " + p + " ";
        } else if typ == SubQuery {
          var p := BindParam(args[0]);
          q := args[1].s + " " + p + " ";
        } else {
          q := "";
        }
      } else if |args| == 3 {
        var p := BindParam(args[2]);
        if IsIn(args[1].s) {
          q := args[0].s + " " + args[1].s + " (" + p + ") ";
        } else {
          q := args[0].s + " " + args[1].s + " " + p + " ";
        }
      } else {
        if typ == Shape.RawQuery {
          q := args[0].s + " ";
          var _ := BindParams(AnyList(args[1..]));
        } else if IsBetween(args[1].s) {
          var lo := BindParam(args[2]);
          var hi := BindParam(args[3]);
          q := args[0].s + " " + args[1].s + " " + lo + " AND " + hi + " ";
        } else if IsIn(args[1].s) {
          var list := BindParams(AnyList(args[2..]));
          q := args[0].s + " " + args[1].s + " (" + list + ") ";
        } else {
          q := "";
        }
      }
    }

    /** The condition list `buildWhere(typ)` reads: the HAVING list for "HAVING", the WHERE list otherwise. */
    function Selected(typ: string): seq<Condition>
      reads this`conditions, this`havingConditions
    {
      if typ == "HAVING" then havingConditions else conditions
    }

    /** `buildWhere(typ)`: the clause keyword, then every condition led by its connector after the first. */
    method BuildWhere(typ: string) returns (q: string)
      requires AllRenderable(Selected(typ))
      modifies this`params
      ensures q == Clause(typ, Selected(typ)).sql
      ensures params == old(params) + Clause(typ, Selected(typ)).args
    {
      var conds: seq<Condition>;
      if typ == "HAVING" {
        conds := havingConditions;
        if |conds| == 0 {
          return "";
        }
        q := "HAVING ";
      } else {
        conds := conditions;
        if |conds| == 0 {
          return "";
        }
        q := "WHERE ";
      }
      var body := BuildChain(conds);
      q := q + body;
      assert [] + Chain(conds).args == Chain(conds).args;
    }

    /** The loop of `buildWhere`: every condition rendered in order, each after the first led by its connector. */
    method BuildChain(conds: seq<Condition>) returns (q: string)
      requires AllRenderable(conds)
      modifies this`params
      ensures q == Chain(conds).sql
      ensures params == old(params) + Chain(conds).args
    {
      q := "";
      var i := 0;
      while i < |conds|
        invariant 0 <= i <= |conds|
        invariant q == Chain(conds[..i]).sql
        invariant params == old(params) + Chain(conds[..i]).args
      {
        var text := BuildLink(conds[i], i == 0);
        ChainStep(conds, i);
        Grow(old(params), Chain(conds[..i]).args, Link(conds[i], i == 0).args);
        q := q + text;
        i := i + 1;
      }
      assert conds[..i] == conds;
    }

    /** One pass of the `buildWhere` loop: the connector unless first, then the condition. */
    method BuildLink(c: Condition, first: bool) returns (text: string)
      requires Renderable(c.args)
      modifies this`params
      ensures text == Link(c, first).sql
      ensures params == old(params) + Link(c, first).args
    {
      text := "";
      if !first {
        text := text + ConnectorText(c.connector) + " ";
      }
      var cond := BuildCondition(c.args);
      text := text + cond;
      assert [] + RenderCondition(c.args).args == RenderCondition(c.args).args;
    }

    /** `saveCondition`: file the condition under HAVING or WHERE. */
    method SaveCondition(typ: string, connector: Connector, args: seq<Value>)
      modifies this
      ensures typ == "HAVING" ==>
        State() == old(State()).(havingConditions := old(havingConditions) + [Condition(args, connector)])
      ensures typ != "HAVING" ==>
        State() == old(State()).(conditions := old(conditions) + [Condition(args, connector)])
    {
      var c := Condition(args, connector);
      if typ == "HAVING" {
        havingConditions := havingConditions + [c];
      } else {
        conditions := conditions + [c];
      }
    }

    method Where(args: seq<Value>)
      modifies this
      ensures State() == old(State()).(conditions := old(conditions) + [Condition(args, And)])
    {
      SaveCondition("WHERE", And, args);
    }

    method OrWhere(args: seq<Value>)
      modifies this
      ensures State() == old(State()).(conditions := old(conditions) + [Condition(args, Or)])
    {
      SaveCondition("WHERE", Or, args);
    }

    method Having(args: seq<Value>)
      modifies this
      ensures State() == old(State()).(havingConditions := old(havingConditions) + [Condition(args, And)])
    {
      SaveCondition("HAVING", And, args);
    }

    method OrHaving(args: seq<Value>)
      modifies this
      ensures State() == old(State()).(havingConditions := old(havingConditions) + [Condition(args, Or)])
    {
      SaveCondition("HAVING", Or, args);
    }

    // ----- ORDER BY -----

    /** `buildOrderBy`: every stored order as an entry followed by ", ", then `trim`. */
    method BuildOrderBy() returns (q: string)
      requires OrdersReady(orders)
      modifies this`params
      ensures q == OrderClause(orders).sql
      ensures params == old(params) + OrderClause(orders).args
    {
      var os := orders;
      if |os| == 0 {
        return "";
      }
      q := "ORDER BY ";
      var i := 0;
      while i < |os|
        invariant 0 <= i <= |os|
        invariant q == "ORDER BY " + Terminated(EntryTexts(os[..i]))
        invariant params == old(params) + EntryArgs(os[..i])
      {
        var o := os[i];
        var entry := BuildEntry(o);
        EntryStep(os, i);
        Grow(old(params), EntryArgs(os[..i]), OrderEntry(o).args);
        Extend("ORDER BY ", EntryTexts(os[..i]), entry);
        q := q + entry + ", ";
        i := i + 1;
      }
      assert os[..i] == os;
      TrimTerminated("ORDER BY ", EntryTexts(os));
      q := Trim(q);
    }

    /** One entry of `buildOrderBy`: the column, its direction, and for a custom order the FIELD list it binds. */
    method BuildEntry(o: Order) returns (entry: string)
      requires OrderReady(o)
      modifies this`params
      ensures entry == OrderEntry(o).sql
      ensures params == old(params) + OrderEntry(o).args
    {
      if |o.args| == 1 {
        entry := o.column + " " + Verb(o.args[0]);
      } else if |o.args| > 1 {
        var list := BindParams(AnyList(o.args[1..]));
        entry := "FIELD (" + o.column + ", " + list + ") " + Verb(o.args[0]);
      } else {
        entry := o.column;
      }
    }

    /** `OrderBy(column, args...)`: append one order, in call order. */
    method OrderBy(column: string, args: seq<Value>)
      modifies this
      ensures State() == old(State()).(orders := old(orders) + [Order(column, args)])
    {
      orders := orders + [Order(column, args)];
    }

    // ----- ON DUPLICATE KEY, INSERT, UPDATE -----

    /** `buildDuplicate`: reads the configured columns; binds nothing and changes nothing. */
    method BuildDuplicate() returns (q: string)
      ensures q == DuplicateClause(onDuplicateColumns, lastInsertIdColumn)
    {
      var cols := onDuplicateColumns;
      if |cols| == 0 {
        return "";
      }
      var head := "ON DUPLICATE KEY UPDATE ";
      q := head;
      assert q == head + Terminated([]);
      if lastInsertIdColumn != "" {
        var assignment := lastInsertIdColumn + "=LAST_INSERT_ID(" + lastInsertIdColumn + ")";
        Extend(head, [], assignment);
        assert [] + [assignment] == [assignment];
        q := q + assignment + ", ";
      }
      var lead := LeadIn(lastInsertIdColumn);
      assert lead + DuplicateParts(cols[..0]) == lead;
      var i := 0;
      while i < |cols|
        invariant 0 <= i <= |cols|
        invariant q == head + Terminated(lead + DuplicateParts(cols[..i]))
      {
        var part := cols[i] + " = VALUE(" + cols[i] + ")";
        DuplicateStep(lead, cols, i);
        Extend(head, lead + DuplicateParts(cols[..i]), part);
        q := q + part + ", ";
        i := i + 1;
      }
      assert cols[..i] == cols;
      TrimTerminated(head, lead + DuplicateParts(cols));
      q := Trim(q);
    }

    /** The inner loop of `buildInsert` over one map: its keys and its bound values, each followed by ", ". */
    method BindRow(r: Record) returns (columns: string, values: string)
      modifies this`params
      ensures columns == Terminated(Names(r))
      ensures values == Terminated(Placeholders(Entries(r)))
      ensures params == old(params) + BoundAll(Entries(r))
    {
      columns, values := "", "";
      var i := 0;
      while i < |r|
        invariant 0 <= i <= |r|
        invariant columns == Terminated(Names(r[..i]))
        invariant values == Terminated(Placeholders(Entries(r[..i])))
        invariant params == old(params) + BoundAll(Entries(r[..i]))
      {
        var column := r[i].0;
        columns := columns + column + ", ";
        var p := BindParam(r[i].1);
        values := values + p + ", ";
        RowStep(r, i);
        TerminatedSnoc(Names(r[..i]), column);
        BindSnoc(Entries(r[..i]), r[i].1);
        TerminatedSnoc(Placeholders(Entries(r[..i])), p);
        Grow(old(params), BoundAll(Entries(r[..i])), Bound(r[i].1));
        i := i + 1;
      }
      assert r[..i] == r;
    }

    /** One map of `buildInsert` as a parenthesised tuple, with its keys still ", "-terminated. */
    method BindTuple(r: Record) returns (columns: string, tuple: string)
      modifies this`params
      ensures columns == Terminated(Names(r))
      ensures tuple == Tuple(r).sql
      ensures params == old(params) + Tuple(r).args
    {
      var values;
      columns, values := BindRow(r);
      TrimList(Placeholders(Entries(r)));
      tuple := "(" + Trim(values) + ")";
    }

    /** The column and value lists of `buildInsert`, for one map, a slice of maps, or anything else. */
    method BindValues(data: Rows) returns (columns: string, values: string)
      modifies this`params
      ensures columns == ColumnList(data)
      ensures values == ValueList(data).sql
      ensures params == old(params) + ValueList(data).args
    {
      columns, values := "", "";
      match data {
        case One(r) =>
          columns, values := BindTuple(r);
          TrimList(Names(r));
        case Many(rs) =>
          columns, values := BindBatch(rs);
          TrimList(TupleTexts(rs));
          values := Trim(values);
          if |rs| > 0 {
            TrimList(Names(rs[0]));
          } else {
            TrimList([]);
          }
        case Neither =>
          TrimList([]);
      }
      columns := Trim(columns);
    }

    /** The batch branch of `bindValues`: the first map's keys, and every map's tuple, each followed by ", ". */
    method BindBatch(rs: seq<Record>) returns (columns: string, values: string)
      modifies this`params
      ensures columns == if |rs| == 0 then "" else Terminated(Names(rs[0]))
      ensures values == Terminated(TupleTexts(rs))
      ensures params == old(params) + TupleArgs(rs)
    {
      columns, values := "", "";
      var j := 0;
      while j < |rs|
        invariant 0 <= j <= |rs|
        invariant columns == if j == 0 then "" else Terminated(Names(rs[0]))
        invariant values == Terminated(TupleTexts(rs[..j]))
        invariant params == old(params) + TupleArgs(rs[..j])
      {
        var cs, tuple := BindTuple(rs[j]);
        if j == 0 {
          columns := cs;
        }
        BatchStep(old(params), rs, j, values);
        values := values + tuple + ", ";
        j := j + 1;
      }
      assert rs[..j] == rs;
    }

    /** `buildInsert(operator, data)`: the INSERT or REPLACE head, binding every value in order. */
    method BuildInsert(operator: string, data: Rows) returns (q: string)
      requires |tableName| > 0
      modifies this`params
      ensures q == InsertClause(operator, queryOptions, tableName[0], data).sql
      ensures params == old(params) + InsertClause(operator, queryOptions, tableName[0], data).args
    {
      var options := "";
      if |queryOptions| > 0 {
        options := Join(queryOptions, ", ") + " ";
      }
      var columns, values := BindValues(data);
      q := operator + " " + options + "INTO " + tableName[0] + " (" + columns + ") VALUES " + values + " ";
    }

    /** `buildUpdate(data)`: `UPDATE <table> SET`, one assignment per key of a single map. */
    method BuildUpdate(data: Rows) returns (q: string)
      requires |tableName| > 0
      modifies this`params
      ensures q == UpdateClause(tableName[0], data).sql
      ensures params == old(params) + UpdateClause(tableName[0], data).args
    {
      var pairs := "";
      q := "UPDATE " + tableName[0] + " SET ";
      match data {
        case One(r) =>
          pairs := BindAssignments(r);
          TrimList(Assignments(r));
        case _ =>
          TrimList([]);
      }
      q := q + Trim(pairs) + " ";
    }

    /** The loop of `buildUpdate`: `col = <placeholder>, ` per key, binding each value in order. */
    method BindAssignments(r: Record) returns (pairs: string)
      modifies this`params
      ensures pairs == Terminated(Assignments(r))
      ensures params == old(params) + BoundAll(Entries(r))
    {
      pairs := "";
      var i := 0;
      while i < |r|
        invariant 0 <= i <= |r|
        invariant pairs == Terminated(Assignments(r[..i]))
        invariant params == old(params) + BoundAll(Entries(r[..i]))
      {
        var p := BindParam(r[i].1);
        AssignStep(old(params), r, i, pairs);
        pairs := pairs + (r[i].0 + " = " + p) + ", ";
        i := i + 1;
      }
      assert r[..i] == r;
    }

    // ----- setters -----

    /** `Table(tableName...)`. */
    method Table(names: seq<string>)
      modifies this
      ensures State() == old(State()).(tableName := names)
    {
      tableName := names;
    }

    /** `OnDuplicate(columns, lastInsertID...)`: the first LAST_INSERT_ID column, when given, replaces the stored one. */
    method OnDuplicate(columns: seq<string>, lastInsertId: seq<string>)
      modifies this
      ensures State() == old(State()).(onDuplicateColumns := columns,
        lastInsertIdColumn := if |lastInsertId| != 0 then lastInsertId[0] else old(lastInsertIdColumn))
    {
      onDuplicateColumns := columns;
      if |lastInsertId| != 0 {
        lastInsertIdColumn := lastInsertId[0];
      }
    }

    /** `Limit(count, to...)`. */
    method Limit(count: int, to: seq<int>)
      modifies this
      ensures State() == old(State()).(limit := LimitValues(count, to))
    {
      if |to| == 0 {
        limit := [count];
      } else {
        limit := [count, to[0]];
      }
    }

    // ----- terminal calls -----

    /**
     * The common tail of a terminal call: TrimSpace the query, record it as
     * the last query, hand it out with the parameters bound for it, clean.
     */
    method Finish() returns (stmt: Fragment)
      modifies this
      ensures stmt == Trimmed(Fragment(old(query), old(params)))
      ensures State() == Finished(old(State()), stmt.sql)
    {
      query := TrimSpace(query);
      lastQuery := query;
      stmt := Fragment(query, params);
      Clean();
    }

    /** Append a clause that binds nothing. */
    method Append(text: string)
      modifies this`query
      ensures Fragment(query, params) == Fragment(old(query), params).Then(Fragment(text, []))
    {
      query := query + text;
      assert params + [] == params;
    }

    /** Append `buildWhere(typ)`. */
    method AppendWhere(typ: string)
      requires AllRenderable(Selected(typ))
      modifies this`query, this`params
      ensures Fragment(query, params) == Fragment(old(query), old(params)).Then(Clause(typ, Selected(typ)))
    {
      var w := BuildWhere(typ);
      query := query + w;
    }

    /** Append `buildWhere("WHERE")`, then `buildWhere("HAVING")`. */
    method AppendFilters()
      requires AllRenderable(conditions) && AllRenderable(havingConditions)
      modifies this`query, this`params
      ensures Fragment(query, params)
        == Fragment(old(query), old(params)).Then(Clause("WHERE", conditions)).Then(Clause("HAVING", havingConditions))
    {
      AppendWhere("WHERE");
      AppendWhere("HAVING");
    }

    /** Append `buildOrderBy()`, then `buildLimit()`. */
    method AppendOrderLimit()
      requires OrdersReady(orders)
      modifies this`query, this`params
      ensures Fragment(query, params)
        == Fragment(old(query), old(params)).Then(OrderClause(orders)).Then(Fragment(LimitClause(limit), []))
    {
      AppendOrderBy();
      Append(LimitClause(limit));
    }

    /** Append `buildOrderBy()`. */
    method AppendOrderBy()
      requires OrdersReady(orders)
      modifies this`query, this`params
      ensures Fragment(query, params) == Fragment(old(query), old(params)).Then(OrderClause(orders))
    {
      var o := BuildOrderBy();
      query := query + o;
    }

    /** `Get(columns...)`: SELECT, WHERE, HAVING, ORDER BY, LIMIT. */
    method Get(columns: seq<string>) returns (stmt: Fragment)
      requires Renders(State()) && |tableName| > 0
      modifies this
      ensures stmt == SelectStatement(old(State()), columns)
      ensures State() == Finished(old(State()), stmt.sql)
    {
      ghost var s := State();
      RenderSelect(columns);
      ghost var prior := State();
      stmt := Finish();
      FinishedResets(s, prior, stmt.sql);
    }

    /** The text and parameters of `Get(columns...)` before the final TrimSpace. */
    method RenderSelect(columns: seq<string>)
      requires AllRenderable(conditions) && AllRenderable(havingConditions) && OrdersReady(orders) && |tableName| > 0
      modifies this`query, this`params
      ensures Fragment(query, params)
        == Fragment(SelectClause(columns, tableName[0]), old(params))
           .Then(Clause("WHERE", conditions)).Then(Clause("HAVING", havingConditions))
           .Then(OrderClause(orders)).Then(Fragment(LimitClause(limit), []))
    {
      query := SelectClause(columns, tableName[0]);
      AppendFilters();
      AppendOrderLimit();
    }

    /** `GetOne(columns...)`: a SELECT limited to one row. */
    method GetOne(columns: seq<string>) returns (stmt: Fragment)
      requires Renders(State()) && |tableName| > 0
      modifies this
      ensures stmt == SelectStatement(old(State()).(limit := [1]), columns)
      ensures State() == Finished(old(State()), stmt.sql)
    {
      Limit(1, []);
      stmt := Get(columns);
    }

    /** `GetValue(column)`: a SELECT of one column renamed `Value`. */
    method GetValue(column: string) returns (stmt: Fragment)
      requires Renders(State()) && |tableName| > 0
      modifies this
      ensures stmt == SelectStatement(old(State()), [column + " AS Value"])
      ensures State() == Finished(old(State()), stmt.sql)
    {
      stmt := Get([column + " AS Value"]);
    }

    /** `Paginate(pageCount, columns...)`: the page window as LIMIT, then the page count by truncating division. */
    method Paginate(page: int, columns: seq<string>) returns (stmt: Fragment)
      requires Renders(State()) && |tableName| > 0 && pageLimit != 0
      modifies this
      ensures stmt == SelectStatement(old(State()).(limit := PageWindow(old(pageLimit), page)), columns)
      ensures State() == Finished(old(State()), stmt.sql).(totalPage := TruncDiv(old(totalCount), old(pageLimit)))
    {
      Limit(pageLimit * (page - 1), [pageLimit]);
      stmt := Get(columns);
      totalPage := TruncDiv(totalCount, pageLimit);
    }

    /** `Insert(data)`: INSERT, ON DUPLICATE KEY, WHERE, HAVING, ORDER BY, LIMIT. */
    method Insert(data: Rows) returns (stmt: Fragment)
      requires Renders(State()) && |tableName| > 0
      modifies this
      ensures stmt == InsertStatement(old(State()), data)
      ensures State() == Finished(old(State()), stmt.sql)
    {
      ghost var s := State();
      RenderInsert(data);
      ghost var prior := State();
      stmt := Finish();
      FinishedResets(s, prior, stmt.sql);
    }

    /** The text and parameters of `Insert(data)` before the final TrimSpace: those of InsertMulti, then LIMIT. */
    method RenderInsert(data: Rows)
      requires AllRenderable(conditions) && AllRenderable(havingConditions) && OrdersReady(orders) && |tableName| > 0
      modifies this`query, this`params
      ensures Fragment(query, params)
        == Fragment(InsertClause("INSERT", queryOptions, tableName[0], data).sql,
                    old(params) + InsertClause("INSERT", queryOptions, tableName[0], data).args)
           .Then(Fragment(DuplicateClause(onDuplicateColumns, lastInsertIdColumn), []))
           .Then(Clause("WHERE", conditions)).Then(Clause("HAVING", havingConditions))
           .Then(OrderClause(orders)).Then(Fragment(LimitClause(limit), []))
    {
      RenderInsertMulti(data);
      Append(LimitClause(limit));
    }

    /** The text and parameters of `InsertMulti(data)` before the final TrimSpace. */
    method RenderInsertMulti(data: Rows)
      requires AllRenderable(conditions) && AllRenderable(havingConditions) && OrdersReady(orders) && |tableName| > 0
      modifies this`query, this`params
      ensures Fragment(query, params)
        == Fragment(InsertClause("INSERT", queryOptions, tableName[0], data).sql,
                    old(params) + InsertClause("INSERT", queryOptions, tableName[0], data).args)
           .Then(Fragment(DuplicateClause(onDuplicateColumns, lastInsertIdColumn), []))
           .Then(Clause("WHERE", conditions)).Then(Clause("HAVING", havingConditions))
           .Then(OrderClause(orders))
    {
      RenderInsertHead(data);
      AppendFilters();
      AppendOrderBy();
    }

    /** `buildInsert("INSERT", data)` then `buildDuplicate()`. */
    method RenderInsertHead(data: Rows)
      requires |tableName| > 0
      modifies this`query, this`params
      ensures Fragment(query, params)
        == Fragment(InsertClause("INSERT", queryOptions, tableName[0], data).sql,
                    old(params) + InsertClause("INSERT", queryOptions, tableName[0], data).args)
           .Then(Fragment(DuplicateClause(onDuplicateColumns, lastInsertIdColumn), []))
    {
      query := BuildInsert("INSERT", data);
      var d := BuildDuplicate();
      Append(d);
    }

    /** `InsertMulti(data)`: as Insert, without LIMIT. */
    method InsertMulti(data: Rows) returns (stmt: Fragment)
      requires Renders(State()) && |tableName| > 0
      modifies this
      ensures stmt == InsertMultiStatement(old(State()), data)
      ensures State() == Finished(old(State()), stmt.sql)
    {
      ghost var s := State();
      RenderInsertMulti(data);
      ghost var prior := State();
      stmt := Finish();
      FinishedResets(s, prior, stmt.sql);
    }

    /** `Replace(data)`: REPLACE, WHERE, HAVING, LIMIT. */
    method Replace(data: Rows) returns (stmt: Fragment)
      requires Filters(State()) && |tableName| > 0
      modifies this
      ensures stmt == ReplaceStatement(old(State()), data)
      ensures State() == Finished(old(State()), stmt.sql)
    {
      ghost var s := State();
      RenderReplace(data);
      ghost var prior := State();
      stmt := Finish();
      FinishedResets(s, prior, stmt.sql);
    }

    /** The text and parameters of `Replace(data)` before the final TrimSpace. */
    method RenderReplace(data: Rows)
      requires AllRenderable(conditions) && AllRenderable(havingConditions) && |tableName| > 0
      modifies this`query, this`params
      ensures Fragment(query, params)
        == Fragment(InsertClause("REPLACE", queryOptions, tableName[0], data).sql,
                    old(params) + InsertClause("REPLACE", queryOptions, tableName[0], data).args)
           .Then(Clause("WHERE", conditions)).Then(Clause("HAVING", havingConditions))
           .Then(Fragment(LimitClause(limit), []))
    {
      query := BuildInsert("REPLACE", data);
      AppendFilters();
      Append(LimitClause(limit));
    }

    /** `Update(data)`: UPDATE ... SET, WHERE, HAVING, ORDER BY, LIMIT. */
    method Update(data: Rows) returns (stmt: Fragment)
      requires Renders(State()) && |tableName| > 0
      modifies this
      ensures stmt == UpdateStatement(old(State()), data)
      ensures State() == Finished(old(State()), stmt.sql)
    {
      ghost var s := State();
      RenderUpdate(data);
      ghost var prior := State();
      stmt := Finish();
      FinishedResets(s, prior, stmt.sql);
    }

    /** The text and parameters of `Update(data)` before the final TrimSpace. */
    method RenderUpdate(data: Rows)
      requires AllRenderable(conditions) && AllRenderable(havingConditions) && OrdersReady(orders) && |tableName| > 0
      modifies this`query, this`params
      ensures Fragment(query, params)
        == Fragment(UpdateClause(tableName[0], data).sql, old(params) + UpdateClause(tableName[0], data).args)
           .Then(Clause("WHERE", conditions)).Then(Clause("HAVING", havingConditions))
           .Then(OrderClause(orders)).Then(Fragment(LimitClause(limit), []))
    {
      query := BuildUpdate(data);
      AppendFilters();
      AppendOrderLimit();
    }

    /** `Delete()`: DELETE FROM every table, WHERE, HAVING, ORDER BY, LIMIT. */
    method Delete() returns (stmt: Fragment)
      requires Renders(State())
      modifies this
      ensures stmt == DeleteStatement(old(State()))
      ensures State() == Finished(old(State()), stmt.sql)
    {
      ghost var s := State();
      RenderDelete();
      ghost var prior := State();
      stmt := Finish();
      FinishedResets(s, prior, stmt.sql);
    }

    /** The text and parameters of `Delete()` before the final TrimSpace. */
    method RenderDelete()
      requires AllRenderable(conditions) && AllRenderable(havingConditions) && OrdersReady(orders)
      modifies this`query, this`params
      ensures Fragment(query, params)
        == Fragment(DeleteClause(tableName), old(params))
           .Then(Clause("WHERE", conditions)).Then(Clause("HAVING", havingConditions))
           .Then(OrderClause(orders)).Then(Fragment(LimitClause(limit), []))
    {
      query := DeleteClause(tableName);
      AppendFilters();
      AppendOrderLimit();
    }

    /** `RawQuery(query, values...)`: the text as given, the values bound in order; nothing is cleaned. */
    method RawQuery(q: string, values: seq<Value>) returns (stmt: Fragment)
      modifies this
      ensures stmt == Fragment(q, old(params) + BindList(values).args)
      ensures State() == old(State()).(query := q, lastQuery := q, params := stmt.args)
    {
      ghost var s := State();
      query, lastQuery := q, q;
      assert State() == s.(query := q, lastQuery := q);
      var _ := BindParams(AnyList(values));
      stmt := Fragment(query, params);
    }

    /** `RawQueryOne(query, values...)`: the same as RawQuery. */
    method RawQueryOne(q: string, values: seq<Value>) returns (stmt: Fragment)
      modifies this
      ensures stmt == Fragment(q, old(params) + BindList(values).args)
      ensures State() == old(State()).(query := q, lastQuery := q, params := stmt.args)
    {
      stmt := RawQuery(q, values);
    }
  }
}
