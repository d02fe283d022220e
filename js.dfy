/** JavaScript values the storage engine handles: parsed JSON bodies, string
    slots that may also hold `undefined` or `null`, and the outcome of a call
    that may throw. */
module Js {

  datatype Option<+T> = None | Some(value: T)

  /** The result of an async call: it resolves to a value or throws an Error
      carrying `message`. */
  datatype Outcome<+T> = Ok(value: T) | Throw(message: string)

  /** A value produced by `Response.json()`. Numbers are reals; JSON cannot
      produce `undefined` or NaN. */
  datatype Json =
    | JNull
    | JBool(b: bool)
    | JNumber(n: real)
    | JString(s: string)
    | JArray(items: seq<Json>)
    | JObject(fields: map<string, Json>)

  /** JavaScript truthiness of a JSON value: `null`, `false`, `0` and `""`
      are falsy; every array and every object (even an empty one) is truthy. */
  predicate Truthy(v: Json)
  {
    match v
    case JNull => false
    case JBool(b) => b
    case JNumber(n) => n != 0.0
    case JString(s) => s != ""
    case JArray(_) => true
    case JObject(_) => true
  }

  /** A variable typed `string` in the program that may nevertheless hold
      `undefined` (never assigned, an absent option) or `null` (a missing
      key-value entry). */
  datatype Text = Undefined | Null | Str(s: string)

  /** JavaScript truthiness of such a slot: only a non-empty string. */
  predicate Present(t: Text)
  {
    t.Str? && t.s != ""
  }

  /** JavaScript `a || b` on two slots. */
  function Or(a: Text, b: Text): (r: Text)
    ensures Present(a) ==> r == a
    ensures !Present(a) ==> r == b
    ensures Present(r) <==> Present(a) || Present(b)
  {
    if Present(a) then a else b
  }

  /** `String(t)`: what a template literal or `localStorage.setItem`
      makes of the slot. */
  function Show(t: Text): string
  {
    match t
    case Undefined => "undefined"
    case Null => "null"
    case Str(s) => s
  }
}
