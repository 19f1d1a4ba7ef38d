/**
 * The optional value (a JavaScript `null`/`undefined` on one side, a present value on the
 * other) and the outcome of a computation that may throw.
 */
module Wrappers {

  datatype Option<+T> = None | Some(value: T) {

    /** The value, or `default` when absent (JavaScript's `x ?? default`). */
    function GetOr(default: T): T {
      match this
      case Some(v) => v
      case None => default
    }
  }

  /** A value, or the message of the error raised instead. */
  datatype Result<+T> = Success(value: T) | Failure(error: string)
}
