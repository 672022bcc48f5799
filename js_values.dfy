/** The JavaScript coercions the front end relies on when it reads a number out of fetched JSON. */
module JsValues {

  /** A value in a numeric position: `undefined`, `null`, `NaN` or a finite number. */
  datatype JsNumber = Undefined | Null | NaN | Num(x: real)

  /** `v == null || isNaN(v)`, the guard of the number formatters. */
  predicate Unformattable(v: JsNumber) {
    v.Undefined? || v.Null? || v.NaN?
  }

  /** `v || 0`: every falsy number (undefined, null, NaN, 0) reads as 0. */
  function OrZero(v: JsNumber): (r: real)
    ensures v.Num? ==> r == v.x
    ensures !v.Num? ==> r == 0.0
  {
    if v.Num? && v.x != 0.0 then v.x else 0.0
  }

  /** `v >= 0` under JavaScript's coercion: null compares as 0, undefined and NaN compare false. */
  predicate AtLeastZero(v: JsNumber) {
    match v
    case Null => true
    case Num(x) => x >= 0.0
    case _ => false
  }

  /** `Math.abs(v)`: null becomes 0, undefined becomes NaN. */
  function Abs(v: JsNumber): (r: JsNumber)
    ensures r.Num? <==> v.Num? || v.Null?
    ensures r.Num? ==> r.x >= 0.0
    ensures v.Num? ==> r.x == v.x || r.x == -v.x
  {
    match v
    case Num(x) => Num(if x < 0.0 then -x else x)
    case Null => Num(0.0)
    case _ => NaN
  }
}
