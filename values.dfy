/**
 * The heterogeneous values a caller hands to the builder (Go `interface{}`
 * arguments) and what binding one of them does: the placeholder text it
 * renders as (`paramToQuery`) and the values it appends to the parameter
 * stream (`bindParam`, `bindParams`).
 */
module Values {
  import opened Text

  /** The runtime types the builder distinguishes. */
  datatype Value =
    | Int(i: int)
    | Str(s: string)
    | Bool(b: bool)
    | Nil
    | IntList(ints: seq<int>)          // []int
    | StrList(strs: seq<string>)       // []string
    | AnyList(items: seq<Value>)       // []interface{}
    | Func(query: string, values: seq<Value>)      // the `function` struct
    | Sub(subQuery: string, subParams: seq<Value>) // a *Wrapper: its query and its params

  /** A rendered piece of SQL and the parameters bound while rendering it, in order. */
  datatype Fragment = Fragment(sql: string, args: seq<Value>) {
    function Then(next: Fragment): Fragment {
      Fragment(sql + next.sql, args + next.args)
    }
  }

  const Empty := Fragment("", [])

  /** `paramToQuery`: the text a value renders as. */
  function ParamToQuery(v: Value): (p: string)
    ensures v.Sub? ==> p == "(" + v.subQuery + ")"
    ensures v.Func? ==> p == v.query
    ensures v.Nil? ==> p == "NULL"
    ensures !v.Sub? && !v.Func? && !v.Nil? ==> p == "?"
  {
    match v
    case Sub(q, _) => "(" + q + ")"
    case Func(q, _) => q
    case Nil => "NULL"
    case _ => "?"
  }

  /**
   * What `bindParam` appends to the parameter stream: a sub-statement's own
   * parameters, a function's values, and otherwise the value itself (nil and
   * slices included).
   */
  function Bound(v: Value): seq<Value> {
    match v
    case Sub(_, ps) => ps
    case Func(_, vs) => vs
    case _ => [v]
  }

  /** The element sequence `bindParams` iterates over; any other type binds nothing. */
  function Elements(data: Value): (r: seq<Value>)
    ensures data.AnyList? ==> r == data.items
    ensures !data.AnyList? && !data.IntList? && !data.StrList? ==> r == []
  {
    match data
    case AnyList(items) => items
    case IntList(ints) => seq(|ints|, k requires 0 <= k < |ints| => Int(ints[k]))
    case StrList(strs) => seq(|strs|, k requires 0 <= k < |strs| => Str(strs[k]))
    case _ => []
  }

  function Placeholders(vs: seq<Value>): (r: seq<string>)
    ensures |r| == |vs|
  {
    if |vs| == 0 then [] else Placeholders(vs[..|vs| - 1]) + [ParamToQuery(vs[|vs| - 1])]
  }

  /** A typed slice binds one value per element, each wrapped as the element's own type. */
  lemma ElementsOfSlices(data: Value)
    ensures data.IntList? ==>
      (|Elements(data)| == |data.ints| && forall k :: 0 <= k < |data.ints| ==> Elements(data)[k] == Int(data.ints[k]))
    ensures data.StrList? ==>
      (|Elements(data)| == |data.strs| && forall k :: 0 <= k < |data.strs| ==> Elements(data)[k] == Str(data.strs[k]))
  {
  }

  /** The k-th placeholder is the k-th value's own. */
  lemma {:induction false} PlaceholderAt(vs: seq<Value>, k: nat)
    requires k < |vs|
    ensures Placeholders(vs)[k] == ParamToQuery(vs[k])
  {
    if k < |vs| - 1 {
      PlaceholderAt(vs[..|vs| - 1], k);
    }
  }

  /** Everything binding the values in order appends. */
  function BoundAll(vs: seq<Value>): seq<Value> {
    if |vs| == 0 then [] else BoundAll(vs[..|vs| - 1]) + Bound(vs[|vs| - 1])
  }

  /** `bindParams` over a list of values: the placeholders joined with ", ", every element bound in order. */
  function BindList(vs: seq<Value>): Fragment {
    Fragment(TrimSpace(Join(Placeholders(vs), ", ")), BoundAll(vs))
  }

  /** A value whose placeholder text holds exactly one `?` per value it binds. */
  predicate Balanced(v: Value) {
    match v
    case Nil => false
    case Func(q, vs) => Marks(q) == |vs|
    case Sub(q, ps) => Marks(q) == |ps|
    case _ => true
  }

  predicate AllBalanced(vs: seq<Value>) {
    forall k :: 0 <= k < |vs| ==> Balanced(vs[k])
  }

  // ----- properties of binding -----

  /** The old parameter stream is kept and the appended part is exactly the values' own bindings. */
  lemma {:induction false} BoundAllAppend(vs: seq<Value>, ws: seq<Value>)
    ensures BoundAll(vs + ws) == BoundAll(vs) + BoundAll(ws)
  {
    if |ws| > 0 {
      assert (vs + ws)[..|vs + ws| - 1] == vs + ws[..|ws| - 1];
      BoundAllAppend(vs, ws[..|ws| - 1]);
    } else {
      assert vs + ws == vs;
    }
  }

  /** Binding one value keeps placeholder/parameter parity exactly when it is balanced. */
  lemma BindParity(v: Value)
    ensures Balanced(v) <==> Marks(ParamToQuery(v)) == |Bound(v)|
  {
    assert Marks("?") == 1 by { assert "?"[..0] == ""; }
    NoMarks("NULL");
    NoMarks("(");
    NoMarks(")");
    match v
    case Sub(q, ps) =>
      Marks3("(", q, ")");
    case _ =>
  }

  /** A `bindParams` list of balanced values renders one `?` per bound parameter. */
  lemma {:induction false} BindListParity(vs: seq<Value>)
    requires AllBalanced(vs)
    ensures Marks(BindList(vs).sql) == |BindList(vs).args|
  {
    PlaceholderMarks(vs);
    JoinMarks(Placeholders(vs), ", ", SumMarks(Placeholders(vs)));
    TrimSpaceMarks(Join(Placeholders(vs), ", "));
  }

  lemma {:induction false} PlaceholderMarks(vs: seq<Value>)
    requires AllBalanced(vs)
    ensures SumMarks(Placeholders(vs)) == |BoundAll(vs)|
  {
    if |vs| > 0 {
      var front := vs[..|vs| - 1];
      assert Placeholders(vs)[..|vs| - 1] == Placeholders(front);
      PlaceholderMarks(front);
      BindParity(vs[|vs| - 1]);
    }
  }

  /** nil renders as NULL yet still puts one parameter on the stream. */
  lemma NilBreaksParity()
    ensures ParamToQuery(Nil) == "NULL" && Bound(Nil) == [Nil]
    ensures Marks(ParamToQuery(Nil)) == 0 != |Bound(Nil)|
  {
    NoMarks("NULL");
  }

  /** A list passed where one value is bound is a single scalar parameter, not its elements. */
  lemma ListBindsAsOneValue(ints: seq<int>)
    ensures ParamToQuery(IntList(ints)) == "?" && Bound(IntList(ints)) == [IntList(ints)]
    ensures |BindList(Elements(IntList(ints))).args| == |ints|
    ensures BindList(Elements(IntList(ints))).args == Elements(IntList(ints))
  {
    IntElementsBound(ints);
  }

  lemma {:induction false} IntElementsBound(ints: seq<int>)
    ensures BoundAll(Elements(IntList(ints))) == Elements(IntList(ints))
  {
    var es := Elements(IntList(ints));
    ElementsOfSlices(IntList(ints));
    if |ints| > 0 {
      var front := ints[..|ints| - 1];
      IntElementsBound(front);
      ElementsOfSlices(IntList(front));
      assert es[..|es| - 1] == Elements(IntList(front));
      assert Bound(es[|es| - 1]) == [es[|es| - 1]];
      assert es[..|es| - 1] + [es[|es| - 1]] == es;
    }
  }

  /** `Func`: a raw SQL fragment with the values it needs bound. */
  function MakeFunc(query: string, data: seq<Value>): (f: Value)
    ensures ParamToQuery(f) == query && Bound(f) == data
    ensures Balanced(f) <==> Marks(query) == |data|
  {
    Func(query, data)
  }
}
