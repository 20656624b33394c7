/** Optional values and error results used for the loader's optional handles and raised errors. */
module Wrappers {

  /** A value that may be absent (Python's `None`). */
  datatype Option<+T> = None | Some(value: T)

  /** The value an operation returns, or the error it raises. */
  datatype Result<+R, +E> = Success(value: R) | Failure(error: E)

  /** An operation that returns nothing, or the error it raises. */
  datatype Outcome<+E> = Pass | Fail(error: E)
}
