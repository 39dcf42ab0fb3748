/** Option and Result values used by both services in place of JavaScript's
    `undefined`/`null` and thrown errors. */
module Wrappers {

  /** An optional value; `None` stands for JavaScript's `undefined` or `null`. */
  datatype Option<+T> = None | Some(value: T) {
    function GetOr(default: T): T {
      match this
      case Some(v) => v
      case None => default
    }
  }

  /** The outcome of a step that may throw: a value or the error it raised. */
  datatype Result<+R, +E> = Success(value: R) | Failure(error: E)
}
