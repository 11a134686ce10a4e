/** Option, Result and Outcome, used across the model. */
module Wrappers {

  /** A value that may be absent; `None` also stands for PHP `null`. */
  datatype Option<+T> = None | Some(value: T)

  /** The outcome of an operation that returns a value or throws an error. */
  datatype Result<+R, +E> = Success(value: R) | Failure(error: E)

  /** The outcome of an operation that returns nothing or throws an error. */
  datatype Outcome<+E> = Pass | Fail(error: E)
}
