/** Failure-carrying values used in place of Python's `None` and exceptions. */
module Wrappers {

  datatype Option<+T> = None | Some(value: T) {
    function GetOr(default: T): T {
      match this
      case Some(v) => v
      case None => default
    }
  }

  /** A call that either returned a value or raised an exception of kind `E`. */
  datatype Result<+T, +E> = Success(value: T) | Failure(error: E)

  /** A call that returns nothing useful but may raise. */
  datatype Outcome<+E> = Pass | Fail(error: E)
}
