/** The few JavaScript value semantics the GL-flow derivation relies on. */
module JsValues {

  /** What a property lookup on one of the program's object literals can yield:
      a string, the literal `null` stored in the table, or `undefined` for a key
      the object does not have. */
  datatype JsValue = JsString(s: string) | JsNull | JsUndefined

  /** The text a value contributes to a template literal `${v}`. */
  function Interpolate(v: JsValue): string
  {
    match v
    case JsString(s) => s
    case JsNull => "null"
    case JsUndefined => "undefined"
  }

  /** `a || b` on two strings: the empty string is the only falsy string. */
  function OrElse(a: string, b: string): string
  {
    if a != "" then a else b
  }
}
