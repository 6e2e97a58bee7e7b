/**
 * The JavaScript values the frontend code inspects. Numbers are integers
 * here; `NaN` is kept because it is falsy and never equal to itself.
 */
module Js {
  import opened Lang

  datatype JsValue =
    | Undefined
    | Null
    | Bool(b: bool)
    | Num(n: int)
    | NaN
    | Str(s: string)
    | Obj          // any object or array: always truthy, compared by reference

  /** `!!v`. */
  predicate Truthy(v: JsValue) {
    match v
    case Undefined => false
    case Null => false
    case Bool(b) => b
    case Num(n) => n != 0
    case NaN => false
    case Str(s) => s != []
    case Obj => true
  }

  /** `a === b`. Objects are never equal here: two values read from JSON
      are always distinct objects. */
  predicate StrictEquals(a: JsValue, b: JsValue)
    ensures StrictEquals(a, b) ==> a == b && a != NaN && a != Obj
  {
    match a
    case NaN => false
    case Obj => false
    case _ => a == b
  }

  /** `message || fallback` on a possibly missing error message. */
  function MessageOr(message: Option<string>, fallback: string): (m: string)
    ensures message.Some? && message.value != [] ==> m == message.value
    ensures message.None? || message.value == [] ==> m == fallback
  {
    if message.Some? && message.value != [] then message.value else fallback
  }

  /** `String(v)` for the argument of `new Error(v)`: `null` becomes the
      text "null", `undefined` the empty message. */
  function ErrorText(v: JsValue): (m: string)
    ensures v == Null ==> m == "null"
    ensures v == Undefined ==> m == []
    ensures v.Str? ==> m == v.s
  {
    match v
    case Undefined => []
    case Null => "null"
    case Bool(b) => if b then "true" else "false"
    case Num(n) => IntToString(n)
    case NaN => "NaN"
    case Str(s) => s
    case Obj => "[object Object]"
  }

  /** `/^\d+$/.test(s)`. */
  predicate AllDigits(s: string) {
    s != [] && forall i :: 0 <= i < |s| ==> IsDigit(s[i])
  }
}
