/** Optional and fallible results, and the part of a JavaScript / JSON value that the
    decision rules look at: whether it is missing, a string, an array of strings or
    something else, whether it is truthy, and what it prints as. */
module Js {
  import opened Text

  datatype Option<+T> = None | Some(value: T)

  datatype Result<+T, +E> = Ok(value: T) | Err(error: E)

  /** A property value read from a parsed JSON object. */
  datatype Value =
    | Undefined                          // the property is missing
    | Str(s: string)                     // a string
    | StrArray(items: seq<string>)       // an array of strings
    | Other(truthy: bool, text: string)  // null, a number, a boolean or an object:
                                         // its truthiness and its `String(...)` form

  /** JavaScript truthiness: the empty string is falsy, every array is truthy. */
  predicate Truthy(v: Value) {
    match v
    case Undefined => false
    case Str(s) => s != ""
    case StrArray(_) => true
    case Other(t, _) => t
  }

  /** `String(v)`, which is also what a template literal and `new Error(v)` produce. */
  function ToText(v: Value): string {
    match v
    case Undefined => "undefined"
    case Str(s) => s
    case StrArray(items) => Join(items, ",")
    case Other(_, text) => text
  }

  /** `a || b`: the first operand when it is truthy, the second otherwise. */
  function Or(a: Value, b: Value): Value {
    if Truthy(a) then a else b
  }
}
