/** The part of JavaScript's value semantics that the library leans on:
    truthiness (`if (x)`, `!x`), the `||` operator and property access.
    Numbers are modelled as integers; object keys are unordered. */
module JsValue {

  datatype Value =
    | Undefined
    | Null
    | Bool(b: bool)
    | Num(n: int)
    | Str(s: string)
    | Obj(props: map<string, Value>)
    | Arr(elems: seq<Value>)

  /** ECMAScript ToBoolean: `undefined`, `null`, `false`, `0` and `""` are
      falsy; every other value, every object and every array included, is truthy. */
  predicate IsTruthy(v: Value) {
    match v
    case Undefined => false
    case Null => false
    case Bool(b) => b
    case Num(n) => n != 0
    case Str(s) => s != ""
    case Obj(_) => true
    case Arr(_) => true
  }

  /** The values on which a plain property access `v.key` throws a TypeError. */
  predicate IsNullish(v: Value) {
    v.Undefined? || v.Null?
  }

  /** `a || b`: the left operand when it is truthy, otherwise the right one. */
  function Or(a: Value, b: Value): (r: Value)
    ensures IsTruthy(r) <==> IsTruthy(a) || IsTruthy(b)
  {
    if IsTruthy(a) then a else b
  }

  /** `v?.key`: an own property of an object, `undefined` for every other
      value. None of the keys the library reads is inherited from a prototype,
      so own properties are all that matter. */
  function Get(v: Value, key: string): Value {
    if v.Obj? && key in v.props then v.props[key] else Undefined
  }

  predicate NoneTruthy(vs: seq<Value>) {
    forall k :: 0 <= k < |vs| ==> !IsTruthy(vs[k])
  }

  /** What `v0 || v1 || … || vn` evaluates to, stated without evaluating it:
      the first truthy operand, or the last operand when none is truthy. */
  predicate SelectsFirstTruthy(r: Value, vs: seq<Value>) {
    forall i :: 0 <= i < |vs| && (IsTruthy(vs[i]) || i == |vs| - 1) && NoneTruthy(vs[..i]) ==> r == vs[i]
  }

  /** `v0 || v1 || … || vn`. `||` is associative in its value, so folding from
      the right gives what JavaScript's left-to-right evaluation gives. */
  function FirstTruthy(vs: seq<Value>): (r: Value)
    requires |vs| > 0
    ensures SelectsFirstTruthy(r, vs)
    ensures IsTruthy(r) <==> !NoneTruthy(vs)
    ensures r in vs
    decreases |vs|
  {
    if |vs| == 1 then vs[0]
    else
      var rest := FirstTruthy(vs[1..]);
      OrSelectsFirstTruthy(vs, rest);
      Or(vs[0], rest)
  }

  /** One step of the fold: prefixing an operand to a chain whose value is known. */
  lemma {:induction false} OrSelectsFirstTruthy(vs: seq<Value>, rest: Value)
    requires |vs| > 1
    requires SelectsFirstTruthy(rest, vs[1..])
    requires IsTruthy(rest) <==> !NoneTruthy(vs[1..])
    requires rest in vs[1..]
    ensures SelectsFirstTruthy(Or(vs[0], rest), vs)
    ensures IsTruthy(Or(vs[0], rest)) <==> !NoneTruthy(vs)
    ensures Or(vs[0], rest) in vs
  {
    var tail := vs[1..];
    forall i | 0 <= i < |vs| && (IsTruthy(vs[i]) || i == |vs| - 1) && NoneTruthy(vs[..i])
      ensures Or(vs[0], rest) == vs[i]
    {
      if i > 0 {
        assert !IsTruthy(vs[0]) by { assert vs[..i][0] == vs[0]; }
        assert tail[i - 1] == vs[i];
        assert tail[..i - 1] == vs[1..i];
        assert NoneTruthy(tail[..i - 1]) by {
          var prefix := tail[..i - 1];
          forall k | 0 <= k < |prefix| ensures !IsTruthy(prefix[k]) {
            assert vs[..i][k + 1] == prefix[k];
          }
        }
      }
    }
    if NoneTruthy(vs) {
      assert NoneTruthy(tail) by {
        forall k | 0 <= k < |tail| ensures !IsTruthy(tail[k]) { assert tail[k] == vs[k + 1]; }
      }
    }
    if !NoneTruthy(vs) && !IsTruthy(vs[0]) {
      var j :| 0 <= j < |vs| && IsTruthy(vs[j]);
      assert tail[j - 1] == vs[j];
    }
  }
}
