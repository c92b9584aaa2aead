/**
 * The JavaScript values a field of a parsed battery payload can hold.
 * JSON numbers are modelled exactly, as reals; JSON cannot produce NaN.
 */
module JsValues {

  /** `Undefined` is a missing field; `Compound` is any array or object. */
  datatype JsValue = Undefined | Null | Bool(b: bool) | Num(n: real) | Str(s: string) | Compound

  /** The values among these that JavaScript treats as false in `x || y`. */
  predicate Falsy(v: JsValue) {
    v.Undefined? || v.Null? || v == Bool(false) || v == Num(0.0) || v == Str("")
  }
}
