/** Option, Result and Outcome: the null-or-value and throw-or-return shapes of the source. */
module Wrappers {

  /** A JavaScript value that may be `null`. */
  datatype Option<+T> = None | Some(value: T)

  /** A call that either returns a value or throws. */
  datatype Result<+T, +E> = Success(value: T) | Failure(error: E)

  /** A call that either completes or throws, returning nothing. */
  datatype Outcome<+E> = Pass | Fail(error: E)
}
