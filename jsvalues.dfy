/**
 * The JavaScript values the widget inspects: configuration objects and the
 * positional parameters of provider requests.  Numbers are integers here
 * (fractions and NaN play no part in the checks that are modelled).
 */
module JsValues {

  datatype JsValue =
    | Undefined
    | Null
    | Bool(b: bool)
    | Num(n: int)
    | Str(s: string)
    | Arr(elems: seq<JsValue>)
    | Obj(props: map<string, JsValue>)

  /** What the source throws or rejects with. */
  datatype Error =
    | Error(message: string)   // `new Error(message)`, or a library error with that message
    | TypeError                // reading a property of `null`/`undefined`, or calling a missing method
    | SyntaxError              // `JSON.parse` of text that is not JSON

  /** JavaScript truthiness, as used by `if (v)`, `!v` and `v || d`. */
  predicate Truthy(v: JsValue) {
    match v
    case Undefined => false
    case Null => false
    case Bool(b) => b
    case Num(n) => n != 0
    case Str(s) => s != ""
    case Arr(_) => true
    case Obj(_) => true
  }

  /** `null` or `undefined`: the values whose properties cannot be read. */
  predicate Nullish(v: JsValue) {
    v.Undefined? || v.Null?
  }

  /** `v.key` for an own property of a plain object; a missing property reads as `undefined`. */
  function Prop(v: JsValue, key: string): JsValue {
    if v.Obj? && key in v.props then v.props[key] else Undefined
  }

  /** `a || b`. */
  function Or(a: JsValue, b: JsValue): JsValue {
    if Truthy(a) then a else b
  }

  /** `params[k]`: reading past the end of an array gives `undefined`. */
  function At(params: seq<JsValue>, k: nat): JsValue {
    if k < |params| then params[k] else Undefined
  }
}
