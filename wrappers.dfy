/** Option, Result and Outcome: the program's absent values, exceptions and error returns. */
module Wrappers {

  datatype Option<+T> = None | Some(value: T)

  /** A computation that either yields a value or raised an error. */
  datatype Result<+R, +E> = Success(value: R) | Failure(error: E)

  /** A statement that either completed or raised an error. */
  datatype Outcome<+E> = Pass | Fail(error: E)
}
