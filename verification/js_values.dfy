/** The JavaScript values that can sit in a filter-settings object, and the
    parts of the language's semantics that the result summary relies on:
    truthiness, `typeof x === 'number'`, property lookup and `.length`. */
module JsValues {

  /** An IEEE double as far as comparisons go: a finite value, the two
      infinities or NaN. Rounding is not modelled. */
  datatype JsNumber = Finite(value: real) | PositiveInfinity | NegativeInfinity | NaN

  /** Plain objects other than the settings object itself are kept opaque:
      the model gives them no `length` property. */
  datatype JsValue =
    | Undefined
    | Null
    | Bool(b: bool)
    | Number(n: JsNumber)
    | Str(s: string)
    | Array(items: seq<JsValue>)
    | Object

  /** A JavaScript object as a map from its own keys to their values, so
      that `Object.keys(o).length` is `|o|`. */
  type JsObject = map<string, JsValue>

  /** Property read `o.key`: a missing key reads as `undefined`. */
  function Get(o: JsObject, key: string): JsValue {
    if key in o then o[key] else Undefined
  }

  /** ToBoolean: the values `if (v)` and `&&` treat as true. */
  predicate Truthy(v: JsValue) {
    match v
    case Undefined => false
    case Null => false
    case Bool(b) => b
    case Number(n) => !(n.NaN? || n == Finite(0.0))
    case Str(s) => s != ""
    case Array(_) => true
    case Object => true
  }

  /** `n < bound` for a finite bound: false whenever NaN is involved. */
  predicate NumberBelow(n: JsNumber, bound: real) {
    match n
    case Finite(x) => x < bound
    case NegativeInfinity => true
    case PositiveInfinity => false
    case NaN => false
  }

  /** `v.length > 0` for a truthy `v`: strings and arrays have a length,
      for every other value `length` is `undefined` and the comparison is false. */
  predicate LengthAboveZero(v: JsValue) {
    match v
    case Str(s) => |s| > 0
    case Array(items) => |items| > 0
    case _ => false
  }
}
