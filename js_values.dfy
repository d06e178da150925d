/**
 * The slice of JavaScript value semantics the front end's decision logic depends on:
 * the values a JSON body or an auth-client call can produce, truthiness (what `!x`,
 * `x || y` and `!!x` test) and reading a named property, which throws on `null`
 * and `undefined`.
 */
module Js {

  /** A JavaScript value as produced by `JSON.parse`, plus `undefined` for a missing property. */
  datatype JsValue =
    | Undefined
    | Null
    | Bool(b: bool)
    | Number(n: real)
    | Str(s: string)
    | Array(items: seq<JsValue>)
    | Object(props: map<string, JsValue>)

  /** ECMAScript ToBoolean: `undefined`, `null`, `false`, `0` and `""` are falsy; every object is truthy. */
  predicate Truthy(v: JsValue): (b: bool)
    ensures !b <==> v.Undefined? || v.Null? || v == Bool(false) || v == Number(0.0) || v == Str("")
  {
    match v
    case Undefined => false
    case Null => false
    case Bool(b) => b
    case Number(n) => n != 0.0
    case Str(s) => s != ""
    case Array(_) => true
    case Object(_) => true
  }

  /** `a || b`: the left operand when it is truthy, otherwise the right one. */
  function Or(a: JsValue, b: JsValue): (r: JsValue)
    ensures Truthy(a) ==> r == a
    ensures !Truthy(a) ==> r == b
    ensures Truthy(r) <==> Truthy(a) || Truthy(b)
  {
    if Truthy(a) then a else b
  }

  /** What a thrown value looks like to a `catch` clause. */
  datatype Thrown = ErrorInstance(message: string) | NonError

  /** `error instanceof Error ? error.message : 'Unknown error'` */
  function ExceptionMessage(e: Thrown): (m: string)
    ensures e.ErrorInstance? ==> m == e.message
    ensures e.NonError? ==> m == "Unknown error"
  {
    match e
    case ErrorInstance(msg) => msg
    case NonError => "Unknown error"
  }

  /** The outcome of evaluating a property read `v.key`. */
  datatype Access = Value(v: JsValue) | Throws(e: Thrown)

  /** The TypeError message a V8-based runtime gives for `v.key` when `v` is `null` or `undefined`. */
  function NullishReadMessage(v: JsValue, key: string): string
    requires v.Null? || v.Undefined?
  {
    "Cannot read properties of " + (if v.Null? then "null" else "undefined") + " (reading '" + key + "')"
  }

  /**
   * `v.key` for a key that no built-in prototype defines (`error`, `message`, `data`):
   * an object's own entry, `undefined` for any other non-nullish value, a TypeError for
   * `null` and `undefined`.
   */
  function Property(v: JsValue, key: string): (a: Access)
    ensures a.Throws? <==> v.Null? || v.Undefined?
    ensures a.Throws? ==> a.e.ErrorInstance?
    ensures v.Object? && key in v.props ==> a == Value(v.props[key])
    ensures a.Value? && !(v.Object? && key in v.props) ==> a.v == Undefined
  {
    match v
    case Null => Throws(ErrorInstance(NullishReadMessage(v, key)))
    case Undefined => Throws(ErrorInstance(NullishReadMessage(v, key)))
    case Object(props) => if key in props then Value(props[key]) else Value(Undefined)
    case _ => Value(Undefined)
  }
}
