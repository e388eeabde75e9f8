/**
 * The slice of JavaScript value semantics the session controller relies on:
 * parsed JSON values, property access (which throws on null and undefined),
 * optional chaining, truthiness and the string form a template literal gives.
 */
module Js {

  /** The result of a step that may throw or reject, with the error's message. */
  datatype Outcome<+T> = Ok(value: T) | Fail(reason: string)

  /**
   * A JavaScript value as JSON.parse or a response body produces it.
   * `Prim` stands for numbers, booleans and arrays: none of them carries the
   * properties the controller reads, so only their string form and their
   * truthiness matter.
   */
  datatype JsValue =
    | Undefined
    | Null
    | Str(s: string)
    | Prim(text: string, truthy: bool)
    | Obj(props: map<string, JsValue>)
  {
    predicate IsNullish() { Undefined? || Null? }
  }

  /** The message of the TypeError thrown when a value cannot be turned into a string. */
  const CONVERSION_FAILED := "Cannot convert object to primitive value"

  /**
   * Whether `${v}` yields a string. A parsed object with its own `toString`
   * member cannot be converted: that member is data, not a function, and the
   * inherited `valueOf` gives the object itself back, so the conversion throws.
   */
  predicate Printable(v: JsValue) {
    !(v.Obj? && "toString" in v.props)
  }

  /** `${v}` in a template literal, or the TypeError it throws. */
  function Render(v: JsValue): (r: Outcome<string>)
    ensures r.Ok? <==> Printable(v)
    ensures r.Fail? ==> r.reason == CONVERSION_FAILED
    ensures v.Str? ==> r == Ok(v.s)
  {
    match v
    case Undefined => Ok("undefined")
    case Null => Ok("null")
    case Str(s) => Ok(s)
    case Prim(text, _) => Ok(text)
    case Obj(props) => if "toString" in props then Fail(CONVERSION_FAILED) else Ok("[object Object]")
  }

  /** Whether `v || fallback` keeps `v`. */
  predicate Truthy(v: JsValue) {
    match v
    case Undefined => false
    case Null => false
    case Str(s) => s != ""
    case Prim(_, truthy) => truthy
    case Obj(_) => true
  }

  /** The message of the TypeError thrown by `v.key` when `v` is null or undefined. */
  function TypeErrorMessage(v: JsValue, key: string): string
    requires v.IsNullish()
  {
    "Cannot read properties of " + (if v.Null? then "null" else "undefined") + " (reading '" + key + "')"
  }

  /** `v.key` on a value that is not null or undefined: an own data property or undefined. */
  function Prop(v: JsValue, key: string): (r: JsValue)
    requires !v.IsNullish()
    ensures r != Undefined ==> v.Obj? && key in v.props && r == v.props[key]
    ensures v.Obj? && key in v.props ==> r == v.props[key]
  {
    if v.Obj? && key in v.props then v.props[key] else Undefined
  }

  /** `v.key`, which throws a TypeError exactly when `v` is null or undefined. */
  function Get(v: JsValue, key: string): (r: Outcome<JsValue>)
    ensures r.Fail? <==> v.IsNullish()
    ensures r.Ok? ==> r.value == Prop(v, key)
  {
    if v.IsNullish() then Fail(TypeErrorMessage(v, key)) else Ok(Prop(v, key))
  }

  /** `v?.key`: never throws; undefined when `v` is null or undefined. */
  function OptionalGet(v: JsValue, key: string): (r: JsValue)
    ensures v.IsNullish() ==> r == Undefined
    ensures !v.IsNullish() ==> Get(v, key) == Ok(r)
  {
    if v.IsNullish() then Undefined else Prop(v, key)
  }
}
