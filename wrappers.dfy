/** Option, Result and Outcome: the null values and thrown exceptions of the
    modelled code become values of these types. */
module Wrappers {

  /** A nullable reference: `None` is C#'s `null`. */
  datatype Option<+T> = None | Some(value: T) {
    function GetOr(default: T): T {
      match this
      case Some(v) => v
      case None => default
    }
  }

  /** A value, or the exception that the source would have thrown instead. */
  datatype Result<+R, +E> = Success(value: R) | Failure(error: E)

  /** An operation that returns nothing useful, or the exception it throws. */
  datatype Outcome<+E> = Pass | Fail(error: E)
}
