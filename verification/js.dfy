/** The slice of JavaScript's value semantics that the action creators and the
    profile page depend on: parsed JSON bodies, thrown error objects, address
    records, property reads that can fault, and truthiness. */
module Js {
  import opened Wrappers

  /** A JavaScript value. Numbers are integers only (no fractions, no NaN).
      An object is its own enumerable properties; a key mapped to `Undefined`
      is present, which is how `{ ...a, k: undefined }` differs from `a`. */
  datatype Value =
    | Undefined
    | Null
    | Bool(b: bool)
    | Num(n: int)
    | Str(s: string)
    | Arr(items: seq<Value>)
    | Obj(props: map<string, Value>)

  /** What an expression or an awaited promise can throw. */
  datatype Fault =
    | TypeError   // a property read from `undefined` or `null`
    | Rejection   // an awaited promise settled as rejected

  predicate IsNullish(v: Value) {
    v.Undefined? || v.Null?
  }

  /** The property read `v.key`. It throws on `undefined` and `null`; a
      missing key, and any key of a non-object, reads as `undefined`. (The
      keys this code reads are never built-in properties of strings,
      numbers, booleans or arrays.) */
  function Get(v: Value, key: string): Result<Value, Fault> {
    match v
    case Undefined => Failure(TypeError)
    case Null => Failure(TypeError)
    case Obj(props) => Success(if key in props then props[key] else Undefined)
    case _ => Success(Undefined)
  }

  /** The chained read `v.k0.k1...kn`, without optional chaining: the first
      `undefined` or `null` met before the last key throws. */
  function Path(v: Value, keys: seq<string>): (r: Result<Value, Fault>)
    decreases |keys|
  {
    if |keys| == 0 then Success(v)
    else
      match Get(v, keys[0])
      case Failure(f) => Failure(f)
      case Success(w) => Path(w, keys[1..])
  }

  /** The value of `v.key` when the read does not throw. */
  function Prop(v: Value, key: string): (r: Value)
    ensures !IsNullish(v) ==> Get(v, key) == Success(r)
  {
    if v.Obj? && key in v.props then v.props[key] else Undefined
  }

  /** JavaScript truthiness. */
  predicate Truthy(v: Value) {
    match v
    case Undefined => false
    case Null => false
    case Bool(b) => b
    case Num(n) => n != 0
    case Str(s) => s != ""
    case Arr(_) => true
    case Obj(_) => true
  }

  /** The own enumerable properties that `{ ...v }` copies. Only objects are
      modelled as contributing any; `undefined`, `null`, booleans and
      numbers contribute none. */
  function OwnProps(v: Value): map<string, Value> {
    if v.Obj? then v.props else map[]
  }

  /** `Promise.all(xs.map(f))`, taken one element at a time: every value,
      in input order, or the batch rejects with the first rejection in input
      order. */
  function PromiseAll(f: Value -> Result<Value, Fault>, xs: seq<Value>): (r: Result<seq<Value>, Fault>)
    ensures r.Success? ==> |r.value| == |xs|
    ensures r.Success? ==> forall i | 0 <= i < |xs| :: f(xs[i]) == Success(r.value[i])
    ensures r.Failure? <==> exists i | 0 <= i < |xs| :: f(xs[i]).Failure?
    ensures r.Failure? ==>
              exists i | 0 <= i < |xs| ::
                f(xs[i]) == Failure(r.error) && forall j | 0 <= j < i :: f(xs[j]).Success?
    decreases |xs|
  {
    if |xs| == 0 then Success([])
    else
      match f(xs[0])
      case Failure(e) => Failure(e)
      case Success(first) =>
        match PromiseAll(f, xs[1..])
        case Failure(e) =>
          var k :| 0 <= k < |xs| - 1 && f(xs[1..][k]) == Failure(e)
                   && forall j | 0 <= j < k :: f(xs[1..][j]).Success?;
          assert f(xs[k + 1]) == Failure(e);
          assert forall j | 0 <= j < k + 1 :: f(xs[j]).Success? by {
            forall j | 0 <= j < k + 1 ensures f(xs[j]).Success? {
              if j > 0 { assert xs[j] == xs[1..][j - 1]; }
            }
          }
          Failure(e)
        case Success(rest) =>
          assert forall i | 0 <= i < |xs| :: f(xs[i]) == Success(([first] + rest)[i]) by {
            forall i | 0 <= i < |xs| ensures f(xs[i]) == Success(([first] + rest)[i]) {
              if i > 0 { assert xs[i] == xs[1..][i - 1]; }
            }
          }
          Success([first] + rest)
  }

  /** The converse of `PromiseAll`'s element-wise rule: when every element
      resolves, the batch resolves to exactly those values. */
  lemma {:induction false} PromiseAllOfResolved(f: Value -> Result<Value, Fault>, xs: seq<Value>, ys: seq<Value>)
    requires |ys| == |xs|
    requires forall i | 0 <= i < |xs| :: f(xs[i]) == Success(ys[i])
    ensures PromiseAll(f, xs) == Success(ys)
    decreases |xs|
  {
    if |xs| > 0 {
      forall i | 0 <= i < |xs| - 1 ensures f(xs[1..][i]) == Success(ys[1..][i]) {
        assert xs[1..][i] == xs[i + 1];
      }
      PromiseAllOfResolved(f, xs[1..], ys[1..]);
      assert [ys[0]] + ys[1..] == ys;
    }
  }

  /** Two resolved elements: the batch resolves to both values, in order. */
  lemma PromiseAllPair(f: Value -> Result<Value, Fault>, a: Value, b: Value, ra: Value, rb: Value)
    requires f(a) == Success(ra) && f(b) == Success(rb)
    ensures PromiseAll(f, [a, b]) == Success([ra, rb])
  {
    var xs, ys := [a, b], [ra, rb];
    forall i | 0 <= i < |xs| ensures f(xs[i]) == Success(ys[i]) {
    }
    PromiseAllOfResolved(f, xs, ys);
  }
}
