/**
 * The WHERE / HAVING renderer: conditions stored by Where, OrWhere, Having
 * and OrHaving, classified by the runtime type of their first argument and
 * dispatched on their argument count.
 */
module Conditions {
  import opened Text
  import opened Values

  datatype Connector = And | Or

  function ConnectorText(c: Connector): string {
    match c
    case And => "AND"
    case Or => "OR"
  }

  /** One stored condition: the call's arguments and how it joins the previous one. */
  datatype Condition = Condition(args: seq<Value>, connector: Connector)

  /** The `typ` the renderer gives a condition: "Query", "Column", "SubQuery", or left empty. */
  datatype Shape = RawQuery | ColumnName | SubQuery | Untyped

  function ShapeOf(args: seq<Value>): Shape
    requires |args| >= 1
  {
    match args[0]
    case Str(q) => if '?' in q || '(' in q || |args| == 1 then RawQuery else ColumnName
    case Sub(_, _) => SubQuery
    case _ => Untyped
  }

  /**
   * The classification: a sub-wrapper first is a sub-query; a string holding
   * `?` or `(`, or standing alone, is a raw predicate; another string is a
   * column; anything else is left untyped.
   */
  lemma ShapeClassifies(args: seq<Value>)
    requires |args| >= 1
    ensures ShapeOf(args) == SubQuery <==> args[0].Sub?
    ensures ShapeOf(args) == Untyped <==> !args[0].Str? && !args[0].Sub?
    ensures ShapeOf(args) == RawQuery <==> args[0].Str? && ('?' in args[0].s || '(' in args[0].s || |args| == 1)
    ensures ShapeOf(args) == ColumnName <==> args[0].Str? && '?' !in args[0].s && '(' !in args[0].s && |args| > 1
  {
  }

  predicate IsIn(op: string) { op == "IN" || op == "NOT IN" }
  predicate IsBetween(op: string) { op == "BETWEEN" || op == "NOT BETWEEN" }

  /**
   * The argument lists the renderer gets through without a failed type
   * assertion or an out-of-range index, i.e. without a panic.
   */
  predicate Renderable(args: seq<Value>) {
    && |args| >= 1
    && (|args| == 1 ==> args[0].Str?)
    && (|args| == 2 && args[0].Sub? ==> args[1].Str?)
    && (|args| == 3 ==> args[0].Str? && args[1].Str?)
    && (|args| >= 4 && ShapeOf(args) != RawQuery ==>
          args[1].Str? && (IsIn(args[1].s) || IsBetween(args[1].s) ==> args[0].Str?))
  }

  predicate AllRenderable(conds: seq<Condition>) {
    forall i :: 0 <= i < |conds| ==> Renderable(conds[i].args)
  }

  /** The arguments a condition binds, in the order it binds them. */
  function BoundArgs(args: seq<Value>): seq<Value>
    requires Renderable(args)
  {
    var n := |args|;
    if n == 1 then []
    else if n == 2 then
      match ShapeOf(args)
      case RawQuery => [args[1]]
      case ColumnName => [args[1]]
      case SubQuery => [args[0]]
      case Untyped => []
    else if n == 3 then [args[2]]
    else if ShapeOf(args) == RawQuery then args[1..]
    else if IsBetween(args[1].s) then args[2..4]
    else if IsIn(args[1].s) then args[2..]
    else []
  }

  /** The text one condition renders as, by argument count and shape, plus what it binds. */
  function RenderCondition(args: seq<Value>): Fragment
    requires Renderable(args)
  {
    if |args| == 1 then Fragment(args[0].s + " ", [])
    else if |args| == 2 then RenderPair(args)
    else if |args| == 3 then RenderTriple(args)
    else RenderLong(args)
  }

  /** Two arguments: a raw predicate and its value, a column and its value, or a sub-query and its keyword. */
  function RenderPair(args: seq<Value>): Fragment
    requires |args| == 2 && Renderable(args)
  {
    match ShapeOf(args)
    case RawQuery => Fragment(args[0].s + " ", Bound(args[1]))
    case ColumnName => Fragment(args[0].s + " = " + ParamToQuery(args[1]) + " ", Bound(args[1]))
    case SubQuery => Fragment(args[1].s + " " + ParamToQuery(args[0]) + " ", Bound(args[0]))
    case Untyped => Empty
  }

  /** Three arguments: column, operator, one bound value (parenthesised for IN and NOT IN). */
  function RenderTriple(args: seq<Value>): Fragment
    requires |args| == 3 && Renderable(args)
  {
    var op := args[1].s;
    var p := ParamToQuery(args[2]);
    if IsIn(op) then Fragment(args[0].s + " " + op + " (" + p + ") ", Bound(args[2]))
    else Fragment(args[0].s + " " + op + " " + p + " ", Bound(args[2]))
  }

  /** Four or more arguments: a raw predicate with its values, BETWEEN, an IN list, or nothing. */
  function RenderLong(args: seq<Value>): Fragment
    requires |args| >= 4 && Renderable(args)
  {
    if ShapeOf(args) == RawQuery then Fragment(args[0].s + " ", BindList(args[1..]).args)
    else if IsBetween(args[1].s) then
      Fragment(args[0].s + " " + args[1].s + " " + ParamToQuery(args[2]) + " AND " + ParamToQuery(args[3]) + " ",
               Bound(args[2]) + Bound(args[3]))
    else if IsIn(args[1].s) then
      var list := BindList(args[2..]);
      Fragment(args[0].s + " " + args[1].s + " (" + list.sql + ") ", list.args)
    else Empty
  }

  lemma BoundAllPair(a: Value, b: Value)
    ensures BoundAll([a]) == Bound(a)
    ensures BoundAll([a, b]) == Bound(a) + Bound(b)
  {
    assert [a][..0] == [];
    assert [a, b][..1] == [a];
  }

  /**
   * A condition binds exactly the arguments BoundArgs names, left to right:
   * one bindParam call for two or three arguments (a slice given as the third
   * argument of IN is one value), every extra argument of a raw predicate or
   * an IN list, the two ends of a BETWEEN, nothing otherwise.
   */
  lemma RenderBindsInOrder(args: seq<Value>)
    requires Renderable(args)
    ensures RenderCondition(args).args == BoundAll(BoundArgs(args))
  {
    if |args| == 2 {
      BoundAllPair(args[0], args[1]);
      BoundAllPair(args[1], args[0]);
    } else if |args| == 3 {
      BoundAllPair(args[2], args[2]);
    } else if |args| >= 4 && ShapeOf(args) != RawQuery && IsBetween(args[1].s) {
      assert args[2..4] == [args[2], args[3]];
      BoundAllPair(args[2], args[3]);
    }
  }

  /** One condition, led by its connector unless it is the first of its clause. */
  function Link(c: Condition, first: bool): Fragment
    requires Renderable(c.args)
  {
    var lead := if first then "" else ConnectorText(c.connector) + " ";
    Fragment(lead, []).Then(RenderCondition(c.args))
  }

  /** The loop of `buildWhere`: every condition in order, each after the first led by its connector. */
  function Chain(conds: seq<Condition>): Fragment
    requires AllRenderable(conds)
  {
    if |conds| == 0 then Empty
    else Chain(conds[..|conds| - 1]).Then(Link(conds[|conds| - 1], |conds| == 1))
  }

  function Keyword(typ: string): string {
    if typ == "HAVING" then "HAVING " else "WHERE "
  }

  /** `buildWhere(typ)` over the list it selects. */
  function Clause(typ: string, conds: seq<Condition>): (f: Fragment)
    requires AllRenderable(conds)
    ensures |conds| == 0 <==> f.sql == ""
    ensures |conds| == 0 ==> f.args == []
    ensures |conds| > 0 ==> |f.sql| >= |Keyword(typ)| && f.sql[..|Keyword(typ)|] == Keyword(typ)
  {
    if |conds| == 0 then Empty else Fragment(Keyword(typ), []).Then(Chain(conds))
  }

  // ----- the connector structure, read from the front -----

  /** Conditions after the first: each is its connector, a space, and its rendering. */
  function Followers(conds: seq<Condition>): Fragment
    requires AllRenderable(conds)
  {
    if |conds| == 0 then Empty else Link(conds[0], false).Then(Followers(conds[1..]))
  }

  lemma ThenAssoc(a: Fragment, b: Fragment, c: Fragment)
    ensures a.Then(b).Then(c) == a.Then(b.Then(c))
  {
    assert (a.sql + b.sql) + c.sql == a.sql + (b.sql + c.sql);
    assert (a.args + b.args) + c.args == a.args + (b.args + c.args);
  }

  lemma ThenEmpty(a: Fragment)
    ensures a.Then(Empty) == a && Empty.Then(a) == a
  {
    assert a.sql + "" == a.sql && "" + a.sql == a.sql;
    assert a.args + [] == a.args && [] + a.args == a.args;
  }

  lemma {:induction false} FollowersSnoc(conds: seq<Condition>)
    requires |conds| > 0 && AllRenderable(conds)
    ensures Followers(conds) == Followers(conds[..|conds| - 1]).Then(Link(conds[|conds| - 1], false))
  {
    var last := Link(conds[|conds| - 1], false);
    if |conds| == 1 {
      assert conds[..0] == [] && conds[1..] == [];
      ThenEmpty(last);
    } else {
      var rest := conds[1..];
      var head := Link(conds[0], false);
      assert rest[..|rest| - 1] == conds[..|conds| - 1][1..];
      assert rest[|rest| - 1] == conds[|conds| - 1];
      FollowersSnoc(rest);
      ThenAssoc(head, Followers(rest[..|rest| - 1]), last);
    }
  }

  lemma {:induction false} ChainFromFront(conds: seq<Condition>)
    requires |conds| > 0 && AllRenderable(conds)
    ensures Chain(conds) == RenderCondition(conds[0].args).Then(Followers(conds[1..]))
  {
    var first := RenderCondition(conds[0].args);
    if |conds| == 1 {
      assert conds[..0] == [] && conds[1..] == [];
      ThenEmpty(first);
      assert Link(conds[0], true) == first by { ThenEmpty(first); }
    } else {
      var front := conds[..|conds| - 1];
      ChainFromFront(front);
      assert front[0] == conds[0];
      assert front[1..] == conds[1..][..|conds[1..]| - 1];
      FollowersSnoc(conds[1..]);
      ThenAssoc(first, Followers(front[1..]), Link(conds[|conds| - 1], false));
    }
  }

  /**
   * The rendered clause is the keyword, the first condition, then every
   * further condition preceded by its own connector.
   */
  lemma ClauseFromFront(typ: string, conds: seq<Condition>)
    requires |conds| > 0 && AllRenderable(conds)
    ensures Clause(typ, conds) ==
      Fragment(Keyword(typ), []).Then(RenderCondition(conds[0].args)).Then(Followers(conds[1..]))
  {
    ChainFromFront(conds);
    ThenAssoc(Fragment(Keyword(typ), []), RenderCondition(conds[0].args), Followers(conds[1..]));
  }

  // ----- placeholder / parameter parity -----

  predicate NoMark(v: Value) { v.Str? ==> Marks(v.s) == 0 }

  /**
   * A condition whose placeholders match what it binds: a raw predicate
   * (other than the three-argument form, which renders through the operator
   * branch) carries one `?` per bound value; any other shape has no `?` in
   * its column and operator and binds only balanced values.
   */
  predicate ConditionBalanced(args: seq<Value>)
    requires Renderable(args)
  {
    var bound := BoundArgs(args);
    if ShapeOf(args) == RawQuery && |args| != 3 then Marks(args[0].s) == |BoundAll(bound)|
    else AllBalanced(bound) && NoMark(args[0]) && (|args| >= 2 ==> NoMark(args[1]))
  }

  predicate ClauseBalanced(conds: seq<Condition>)
    requires AllRenderable(conds)
  {
    forall i :: 0 <= i < |conds| ==> ConditionBalanced(conds[i].args)
  }

  lemma LiteralMarks()
    ensures Marks(" ") == 0 && Marks(" = ") == 0 && Marks(" (") == 0 && Marks(") ") == 0
    ensures Marks(" AND ") == 0 && Marks("AND ") == 0 && Marks("OR ") == 0
    ensures Marks("WHERE ") == 0 && Marks("HAVING ") == 0 && Marks("") == 0
  {
    NoMarks(" "); NoMarks(" = "); NoMarks(" ("); NoMarks(") ");
    NoMarks(" AND "); NoMarks("AND "); NoMarks("OR ");
    NoMarks("WHERE "); NoMarks("HAVING "); NoMarks("");
  }

  lemma PairParity(args: seq<Value>)
    requires |args| == 2 && Renderable(args) && ConditionBalanced(args)
    ensures Marks(RenderPair(args).sql) == |RenderPair(args).args|
  {
    match ShapeOf(args)
    case RawQuery =>
      BoundAllPair(args[1], args[1]);
      SpacedMarks(args[0].s);
    case ColumnName =>
      BoundAllPair(args[1], args[1]);
      assert AllBalanced([args[1]]);
      NoMarks(" = ");
      PlaceholderMarksAfter(args[0].s, " = ", args[1]);
    case SubQuery =>
      BoundAllPair(args[0], args[0]);
      assert AllBalanced([args[0]]);
      NoMarks(" ");
      PlaceholderMarksAfter(args[1].s, " ", args[0]);
    case Untyped =>
      NoMarks("");
  }

  lemma SpacedMarks(text: string)
    ensures Marks(text + " ") == Marks(text)
  {
    NoMarks(" ");
    MarksCat(text, " ");
  }

  /** `head sep p ` holds the placeholders of the value alone, when head and separator hold none. */
  lemma PlaceholderMarksAfter(head: string, sep: string, v: Value)
    requires Marks(head) == 0 && Marks(sep) == 0 && Balanced(v)
    ensures Marks(head + sep + ParamToQuery(v) + " ") == |Bound(v)|
  {
    BindParity(v);
    Marks3(head, sep, ParamToQuery(v));
    SpacedMarks(head + sep + ParamToQuery(v));
  }

  lemma TripleParity(args: seq<Value>)
    requires |args| == 3 && Renderable(args) && ConditionBalanced(args)
    ensures Marks(RenderTriple(args).sql) == |RenderTriple(args).args|
  {
    LiteralMarks();
    var col, op, p := args[0].s, args[1].s, ParamToQuery(args[2]);
    BindParity(args[2]);
    BoundAllPair(args[2], args[2]);
    Marks3(col, " ", op);
    if IsIn(op) {
      Marks3(col + " " + op, " (", p);
      MarksCat(col + " " + op + " (" + p, ") ");
    } else {
      Marks3(col + " " + op, " ", p);
      MarksCat(col + " " + op + " " + p, " ");
    }
  }

  lemma LongParity(args: seq<Value>)
    requires |args| >= 4 && Renderable(args) && ConditionBalanced(args)
    ensures Marks(RenderLong(args).sql) == |RenderLong(args).args|
  {
    LiteralMarks();
    if ShapeOf(args) == RawQuery {
      MarksCat(args[0].s, " ");
    } else if IsBetween(args[1].s) {
      var col, op, p2, p3 := args[0].s, args[1].s, ParamToQuery(args[2]), ParamToQuery(args[3]);
      assert args[2..4] == [args[2], args[3]];
      assert Balanced(args[2]) && Balanced(args[3]);
      BindParity(args[2]);
      BindParity(args[3]);
      Marks3(col, " ", op);
      Marks3(col + " " + op, " ", p2);
      Marks3(col + " " + op + " " + p2, " AND ", p3);
      MarksCat(col + " " + op + " " + p2 + " AND " + p3, " ");
    } else if IsIn(args[1].s) {
      var col, op := args[0].s, args[1].s;
      var list := BindList(args[2..]);
      BindListParity(args[2..]);
      Marks3(col, " ", op);
      Marks3(col + " " + op, " (", list.sql);
      MarksCat(col + " " + op + " (" + list.sql, ") ");
    }
  }

  /** A balanced condition renders exactly one `?` per parameter it binds. */
  lemma ConditionParity(args: seq<Value>)
    requires Renderable(args) && ConditionBalanced(args)
    ensures Marks(RenderCondition(args).sql) == |RenderCondition(args).args|
  {
    if |args| == 1 {
      LiteralMarks();
      MarksCat(args[0].s, " ");
    } else if |args| == 2 {
      PairParity(args);
    } else if |args| == 3 {
      TripleParity(args);
    } else {
      LongParity(args);
    }
  }

  lemma LinkParity(c: Condition, first: bool)
    requires Renderable(c.args) && ConditionBalanced(c.args)
    ensures Marks(Link(c, first).sql) == |Link(c, first).args|
  {
    ConditionParity(c.args);
    LiteralMarks();
    var lead := if first then "" else ConnectorText(c.connector) + " ";
    NoMarks(lead);
    MarksCat(lead, RenderCondition(c.args).sql);
  }

  lemma {:induction false} ChainParity(conds: seq<Condition>)
    requires AllRenderable(conds) && ClauseBalanced(conds)
    ensures Marks(Chain(conds).sql) == |Chain(conds).args|
  {
    if |conds| > 0 {
      var front := conds[..|conds| - 1];
      var last := conds[|conds| - 1];
      assert forall k :: 0 <= k < |front| ==> front[k] == conds[k];
      ChainParity(front);
      LinkParity(last, |conds| == 1);
      MarksCat(Chain(front).sql, Link(last, |conds| == 1).sql);
    }
  }

  /**
   * Placeholder/parameter parity of a whole WHERE or HAVING clause: when
   * every condition is balanced, the clause holds one `?` per parameter the
   * render appended.
   */
  lemma ClauseParity(typ: string, conds: seq<Condition>)
    requires AllRenderable(conds) && ClauseBalanced(conds)
    ensures Marks(Clause(typ, conds).sql) == |Clause(typ, conds).args|
  {
    if |conds| > 0 {
      ChainParity(conds);
      LiteralMarks();
      MarksCat(Keyword(typ), Chain(conds).sql);
    }
  }

  // ----- the dispatch on concrete calls -----

  lemma ClauseOne(typ: string, c: Condition)
    requires Renderable(c.args)
    ensures Clause(typ, [c]) == Fragment(Keyword(typ) + RenderCondition(c.args).sql, RenderCondition(c.args).args)
  {
    ChainFromFront([c]);
    assert [c][1..] == [];
    ThenEmpty(RenderCondition(c.args));
  }

  lemma ChainTwo(c: Condition, d: Condition)
    requires Renderable(c.args) && Renderable(d.args)
    ensures Chain([c, d]) ==
      Fragment(RenderCondition(c.args).sql + (ConnectorText(d.connector) + " " + RenderCondition(d.args).sql),
               RenderCondition(c.args).args + RenderCondition(d.args).args)
  {
    var rc, rd := RenderCondition(c.args), RenderCondition(d.args);
    assert [c, d][..1] == [c] && [c][..0] == [];
    assert Chain([c]) == rc by { ThenEmpty(rc); }
    assert [] + rd.args == rd.args;
  }

  /** Two conditions: the keyword, the first rendering, the second's connector, the second rendering. */
  lemma ClauseTwo(typ: string, c: Condition, d: Condition)
    requires Renderable(c.args) && Renderable(d.args)
    ensures Clause(typ, [c, d]) ==
      Fragment(Keyword(typ) + RenderCondition(c.args).sql + ConnectorText(d.connector) + " " + RenderCondition(d.args).sql,
               RenderCondition(c.args).args + RenderCondition(d.args).args)
  {
    ChainTwo(c, d);
    var ch := Chain([c, d]);
    assert [] + ch.args == ch.args;
    var kw, a, t, b := Keyword(typ), RenderCondition(c.args).sql, ConnectorText(d.connector), RenderCondition(d.args).sql;
    assert kw + (a + (t + " " + b)) == (kw + a) + (t + " " + b);
    assert (kw + a) + (t + " " + b) == (kw + a) + (t + " ") + b;
    assert (kw + a) + (t + " ") == kw + a + t + " ";
  }

  predicate Scalar(v: Value) { !v.Sub? && !v.Func? && !v.Nil? }

  /** A bare column name: a string the renderer does not take for a raw predicate. */
  predicate PlainColumn(col: string) { '?' !in col && '(' !in col }

  /** `.Where("col", v)`: an implicit equality with one placeholder for a scalar. */
  lemma EqualsDispatch(col: string, v: Value)
    requires PlainColumn(col) && Scalar(v)
    ensures RenderCondition([Str(col), v]) == Fragment(col + " = ? ", [v])
  {
  }

  /** `.Where("col = ?", v)`: a raw predicate is emitted verbatim and its value bound. */
  lemma RawPairDispatch(pred: string, v: Value)
    requires '?' in pred || '(' in pred
    ensures RenderCondition([Str(pred), v]) == Fragment(pred + " ", Bound(v))
  {
  }

  /** `.Where(sub, "EXISTS")`: the keyword, the parenthesised sub-query, and the sub-query's own parameters. */
  lemma SubQueryDispatch(q: string, ps: seq<Value>, keyword: string)
    ensures RenderCondition([Sub(q, ps), Str(keyword)]) == Fragment(keyword + " (" + q + ") ", ps)
  {
    assert keyword + " " + ("(" + q + ")") + " " == keyword + " (" + q + ") ";
  }

  /** `.Where(x, y)` whose first argument is neither a string nor a sub-query renders and binds nothing. */
  lemma UntypedPairDispatch(x: Value, y: Value)
    requires !x.Str? && !x.Sub?
    ensures RenderCondition([x, y]) == Empty
  {
  }

  /** `.Where("col", "IN", x)` binds x once, so a slice gives `(?)` and one parameter. */
  lemma InTripleDispatch(col: string, op: string, x: Value)
    requires IsIn(op) && Scalar(x)
    ensures RenderCondition([Str(col), Str(op), x]) == Fragment(col + " " + op + " (?) ", [x])
  {
  }

  /** `.Where("col", "IS", nil)` renders NULL yet binds nil. */
  lemma NilTripleDispatch(col: string, op: string)
    requires !IsIn(op)
    ensures RenderCondition([Str(col), Str(op), Nil]) == Fragment(col + " " + op + " NULL ", [Nil])
  {
  }

  /** `.Where("col", "BETWEEN", lo, hi)` binds the two ends in order. */
  lemma BetweenDispatch(col: string, op: string, lo: Value, hi: Value)
    requires PlainColumn(col) && IsBetween(op) && Scalar(lo) && Scalar(hi)
    ensures RenderCondition([Str(col), Str(op), lo, hi]) == Fragment(col + " " + op + " ? AND ? ", [lo, hi])
  {
    var args := [Str(col), Str(op), lo, hi];
    assert args[0] == Str(col) && args[1] == Str(op) && args[2] == lo && args[3] == hi;
    assert ShapeOf(args) == ColumnName;
    assert RenderCondition(args) == RenderLong(args);
    BetweenText(col + " " + op + " ");
  }

  lemma BetweenText(head: string)
    ensures head + "?" + " AND " + "?" + " " == head + "? AND ? "
  {
  }

  /** `.Where("col", "IN", v1, v2, ...)` binds every listed value, `?, ?, …` for scalars. */
  lemma InListDispatch(col: string, op: string, vs: seq<Value>)
    requires PlainColumn(col) && IsIn(op) && |vs| >= 2
    requires forall k :: 0 <= k < |vs| ==> Scalar(vs[k])
    ensures RenderCondition([Str(col), Str(op)] + vs) == Fragment(col + " " + op + " (" + QList(|vs|) + ") ", vs)
  {
    var args := [Str(col), Str(op)] + vs;
    assert args[0] == Str(col) && args[1] == Str(op) && args[2..] == vs;
    assert !IsBetween(op);
    assert ShapeOf(args) == ColumnName;
    ScalarList(vs);
    assert RenderCondition(args) == RenderLong(args);
  }

  /** `.Where("col", op, a, b, ...)` with any other operator renders and binds nothing. */
  lemma UnknownOperatorDispatch(col: string, op: string, vs: seq<Value>)
    requires PlainColumn(col) && !IsIn(op) && !IsBetween(op) && |vs| >= 2
    ensures RenderCondition([Str(col), Str(op)] + vs) == Empty
  {
    var args := [Str(col), Str(op)] + vs;
    assert args[0] == Str(col) && args[1] == Str(op);
  }

  /** `?, ?, …, ?` with n placeholders. */
  function QList(n: nat): string {
    if n == 0 then "" else if n == 1 then "?" else QList(n - 1) + ", ?"
  }

  /** A list of scalars binds itself, one `?` per element joined by ", ". */
  lemma ScalarList(vs: seq<Value>)
    requires forall k :: 0 <= k < |vs| ==> Scalar(vs[k])
    ensures BindList(vs) == Fragment(QList(|vs|), vs)
  {
    ScalarJoin(vs);
    ScalarBound(vs);
    QListTrimmed(|vs|);
  }

  lemma QListTrimmed(n: nat)
    ensures TrimSpace(QList(n)) == QList(n)
  {
    if n > 0 {
      QListEdges(n);
      assert !IsSpace('?');
    }
    TrimSpaceKeeps(QList(n));
  }

  lemma {:induction false} ScalarJoin(vs: seq<Value>)
    requires forall k :: 0 <= k < |vs| ==> Scalar(vs[k])
    ensures Join(Placeholders(vs), ", ") == QList(|vs|)
  {
    if |vs| > 1 {
      var front := vs[..|vs| - 1];
      ScalarJoin(front);
      assert Placeholders(vs)[..|vs| - 1] == Placeholders(front);
    }
  }

  lemma {:induction false} ScalarBound(vs: seq<Value>)
    requires forall k :: 0 <= k < |vs| ==> Scalar(vs[k])
    ensures BoundAll(vs) == vs
  {
    if |vs| > 0 {
      ScalarBound(vs[..|vs| - 1]);
      assert vs[..|vs| - 1] + [vs[|vs| - 1]] == vs;
    }
  }

  lemma {:induction false} QListEdges(n: nat)
    requires n > 0
    ensures |QList(n)| > 0 && QList(n)[0] == '?' && QList(n)[|QList(n)| - 1] == '?'
  {
    if n > 1 {
      QListEdges(n - 1);
    }
  }
}
