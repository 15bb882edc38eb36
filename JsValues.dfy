/**
 * A small model of the untyped JavaScript values that reach the validators
 * and helpers: what `typeof`, truthiness and property reads do on them.
 */
module JsValues {

  /** A JavaScript number: a finite real or one of the non-finite values. */
  datatype Number = Finite(r: real) | NaN | PosInfinity | NegInfinity

  /** An untyped JavaScript value. Objects are maps from own keys to values. */
  datatype Js =
    | Undefined
    | Null
    | Bool(b: bool)
    | Str(s: string)
    | Num(n: Number)
    | Arr(elems: seq<Js>)
    | Obj(props: map<string, Js>)

  /** The result of the `typeof` operator. */
  function TypeOf(v: Js): string {
    match v
    case Undefined => "undefined"
    case Null => "object"
    case Bool(_) => "boolean"
    case Str(_) => "string"
    case Num(_) => "number"
    case Arr(_) => "object"
    case Obj(_) => "object"
  }

  /** JavaScript truthiness: `undefined`, `null`, `false`, `""`, `0` and `NaN` are falsy. */
  predicate Truthy(v: Js) {
    match v
    case Undefined => false
    case Null => false
    case Bool(b) => b
    case Str(s) => s != ""
    case Num(n) => n != Finite(0.0) && n != NaN
    case Arr(_) => true
    case Obj(_) => true
  }

  /**
   * The property read `v.key` (or `v?.key`) for the record keys the core
   * looks up. None of those keys is an own property of strings or arrays,
   * nor inherited from `Object.prototype`, so only objects can yield
   * something other than `undefined`.
   */
  function Prop(v: Js, key: string): Js {
    if v.Obj? && key in v.props then v.props[key] else Undefined
  }

  /** `a || b`: the first operand when it is truthy, otherwise the second. */
  function Or(a: Js, b: Js): Js {
    if Truthy(a) then a else b
  }

  /** `typeof v === 'number' && isFinite(v)`. */
  predicate IsFiniteNumber(v: Js) {
    v.Num? && v.n.Finite?
  }

  /** `n > 0` on a JavaScript number. */
  predicate IsPositive(n: Number) {
    (n.Finite? && n.r > 0.0) || n.PosInfinity?
  }

  /** `n < 0` on a JavaScript number. */
  predicate IsNegative(n: Number) {
    (n.Finite? && n.r < 0.0) || n.NegInfinity?
  }
}
