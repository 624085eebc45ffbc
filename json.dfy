/**
 * The values the core passes around as Python objects decoded from, or
 * written as, JSON: Python `None` and JSON `null` are the same value here.
 */
module Json {
  import opened Text

  datatype Value =
    | Null
    | Bool(b: bool)
    | Num(n: int)
    | Str(s: string)
    | Arr(items: seq<Value>)
    | Obj(fields: map<string, Value>)

  /** Python truthiness: `bool(v)`. */
  predicate Truthy(v: Value) {
    match v
    case Null => false
    case Bool(b) => b
    case Num(n) => n != 0
    case Str(s) => s != ""
    case Arr(items) => items != []
    case Obj(fields) => fields != map[]
  }

  /** `d.get(key, default)` on a dict. */
  function Get(fields: map<string, Value>, key: string, default: Value): Value {
    if key in fields then fields[key] else default
  }

  /** `str(v)`; the items of a list are shown by their `repr`. */
  function Render(v: Value): string
    decreases v, 1
  {
    match v
    case Null => "None"
    case Bool(b) => if b then "True" else "False"
    case Num(n) => IntToString(n)
    case Str(s) => s
    case Arr(items) =>
      "[" + Join(seq(|items|, i requires 0 <= i < |items| => Repr(items[i])), ", ") + "]"
    case Obj(fields) => if fields == map[] then "{}" else "{...}"
  }

  /** `repr(v)` as used inside a rendered list: a string is quoted and escaped, anything else is its `str()`. */
  function Repr(v: Value): string
    decreases v, 2
  {
    if v.Str? then StrRepr(v.s) else Render(v)
  }

  /** A one-item list shows that item's `repr` between brackets, so `str(["it's"])` is `["it's"]`. */
  lemma RenderSingleton(v: Value)
    ensures Render(Arr([v])) == "[" + Repr(v) + "]"
  {
    assert seq(1, i requires 0 <= i < 1 => Repr([v][i])) == [Repr(v)];
  }

  /** `[str(item) for item in items if item]` */
  function RenderTruthy(items: seq<Value>): (r: seq<string>)
    ensures |r| <= |items|
    ensures (forall i :: 0 <= i < |items| ==> Truthy(items[i])) ==>
      r == seq(|items|, i requires 0 <= i < |items| => Render(items[i]))
    ensures (forall i :: 0 <= i < |items| ==> !Truthy(items[i])) ==> r == []
  {
    if items == [] then []
    else if Truthy(items[0]) then [Render(items[0])] + RenderTruthy(items[1..])
    else RenderTruthy(items[1..])
  }

  /** Filtering and rendering works piece by piece: the items of `a` come first, in order. */
  lemma {:induction false} RenderTruthyAppend(a: seq<Value>, b: seq<Value>)
    ensures RenderTruthy(a + b) == RenderTruthy(a) + RenderTruthy(b)
  {
    if a != [] {
      var head, tail := a[0], a[1..] + b;
      assert (a + b)[0] == head && (a + b)[1..] == tail;
      RenderTruthyAppend(a[1..], b);
      var rest := RenderTruthy(a[1..]) + RenderTruthy(b);
      if Truthy(head) {
        var h := Render(head);
        assert RenderTruthy(a + b) == [h] + rest;
        assert RenderTruthy(a) == [h] + RenderTruthy(a[1..]);
      } else {
        assert RenderTruthy(a + b) == rest;
      }
    } else {
      assert a + b == b;
    }
  }
}
