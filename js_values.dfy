/** Loosely typed values as the front-end's JavaScript sees them: the records the
    backend returns, their fields, JavaScript truthiness and the `||` fallback
    operator that the pages use to pick the first usable field. */
module JsValues {
  import Text

  datatype Option<T> = None | Some(value: T)

  /** The outcome of evaluating an expression that JavaScript may abort with a
      TypeError (calling a string method on a value that is not a string). */
  datatype Eval<T> = Value(value: T) | TypeError

  /** A JSON-like value. Numbers are integers (dates, prices, counts and ratings
      are whole numbers in this front-end); `Undefined` is a missing field. */
  datatype Json =
    | Undefined
    | Null
    | Bool(b: bool)
    | Num(n: int)
    | Str(s: string)
    | Arr(items: seq<Json>)
    | Obj(fields: map<string, Json>)

  /** JavaScript truthiness: `undefined`, `null`, `false`, `0` and `""` are falsy;
      every array and object is truthy. */
  predicate Truthy(v: Json)
  {
    match v
    case Undefined => false
    case Null => false
    case Bool(b) => b
    case Num(n) => n != 0
    case Str(s) => s != ""
    case Arr(_) => true
    case Obj(_) => true
  }

  /** `null` or `undefined`: reading a property of either throws. */
  predicate IsNullish(v: Json)
  {
    v.Undefined? || v.Null?
  }

  /** `String(v)`, as template literals and property keys convert values; an array
      is its elements joined by commas, null and undefined elements counting as "". */
  function ToString(v: Json): string
    decreases v, 1
  {
    match v
    case Undefined => "undefined"
    case Null => "null"
    case Bool(b) => if b then "true" else "false"
    case Num(n) => if n < 0 then "-" + Text.NatToString(-n) else Text.NatToString(n)
    case Str(s) => s
    case Arr(items) => Text.Join(seq(|items|, i requires 0 <= i < |items| => JoinElement(items[i])), ',')
    case Obj(_) => "[object Object]"
  }

  /** How `join` renders one element: null and undefined as "", anything else as
      `String(v)`. */
  function JoinElement(v: Json): string
    decreases v, 2
  {
    if IsNullish(v) then "" else ToString(v)
  }

  /** `v?.key`: a missing key, or a value that has no own fields, reads as undefined. */
  function Field(v: Json, key: string): Json
  {
    if v.Obj? && key in v.fields then v.fields[key] else Undefined
  }

  /** `a || b`: the left operand when it is truthy, else the right one. */
  function Or(a: Json, b: Json): Json
  {
    if Truthy(a) then a else b
  }

  /** The chain `vs[0] || vs[1] || ... || last`. */
  function FirstTruthy(vs: seq<Json>, last: Json): Json
    decreases |vs|
  {
    if vs == [] then last else Or(vs[0], FirstTruthy(vs[1..], last))
  }

  /** The `||` chain yields the first truthy operand, and the final operand only
      when every earlier one is falsy. */
  lemma {:induction false} FirstTruthyIsFirst(vs: seq<Json>, last: Json)
    ensures (forall i :: 0 <= i < |vs| ==> !Truthy(vs[i])) ==> FirstTruthy(vs, last) == last
    ensures forall k :: 0 <= k < |vs| && Truthy(vs[k]) && (forall i :: 0 <= i < k ==> !Truthy(vs[i]))
              ==> FirstTruthy(vs, last) == vs[k]
    decreases |vs|
  {
    if vs != [] {
      FirstTruthyIsFirst(vs[1..], last);
      assert forall i :: 1 <= i < |vs| ==> vs[1..][i - 1] == vs[i];
      forall k | 0 < k < |vs| && Truthy(vs[k]) && (forall i :: 0 <= i < k ==> !Truthy(vs[i]))
        ensures FirstTruthy(vs, last) == vs[k]
      {
        assert vs[1..][k - 1] == vs[k];
        assert forall i :: 0 <= i < k - 1 ==> !Truthy(vs[1..][i]);
      }
    }
  }

  /** A `||` chain whose last operand is truthy always yields a truthy value, and
      that value is one of its operands. */
  lemma {:induction false} FirstTruthyTruthy(vs: seq<Json>, last: Json)
    requires Truthy(last)
    ensures Truthy(FirstTruthy(vs, last))
    ensures FirstTruthy(vs, last) == last || FirstTruthy(vs, last) in vs
    decreases |vs|
  {
    if vs != [] {
      FirstTruthyTruthy(vs[1..], last);
    }
  }

  /** A chain of three operands, unfolded. */
  lemma FirstTruthyOfThree(a: Json, b: Json, c: Json)
    ensures FirstTruthy([a, b], c) == Or(a, Or(b, c))
  {
    assert [a, b][1..] == [b];
    assert [b][1..] == [];
    assert FirstTruthy([b], c) == Or(b, FirstTruthy([], c));
  }
}
