/**
 * The small slice of JavaScript semantics the userscript relies on:
 * optional values, the completion of an awaited call (a value or a thrown
 * Error with its message), opaque JSON scalars and property lookup that
 * yields `undefined` for a missing key.
 */
module Js {

  datatype Option<+T> = None | Some(value: T)

  /** How an awaited call ends: it resolves with a value or rejects with an Error whose message is given. */
  datatype Outcome<+T> = Returns(value: T) | Throws(message: string)

  /**
   * A JSON value the script only passes along. `Scalar` carries the value's
   * JavaScript string form (what a template literal prints); the value is
   * never computed with.
   */
  datatype Value = Undefined | Scalar(text: string)

  /** The text a template literal `${v}` produces for v. */
  function Show(v: Value): string
  {
    match v
    case Undefined => "undefined"
    case Scalar(t) => t
  }

  /** Property access `obj[key]` on a plain object: a missing key reads as `undefined`. */
  function Get(obj: map<string, Value>, key: string): Value
  {
    if key in obj then obj[key] else Undefined
  }
}
