/** Option, Result and Outcome: how absent fields and error returns are modelled. */
module Wrappers {

  /** A field that may be absent (JavaScript `undefined`, `null` or another falsy value). */
  datatype Option<+T> = None | Some(value: T) {
    /** The value, or `default` when absent: the `x || default` idiom. */
    function GetOr(default: T): T {
      match this
      case Some(v) => v
      case None => default
    }
  }

  /** A value or an error. */
  datatype Result<+T, +E> = Success(value: T) | Failure(error: E)

  /** Success without a value, or an error. */
  datatype Outcome<+E> = Pass | Fail(error: E)
}
