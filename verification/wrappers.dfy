/** Option and Result: the two ways an operation of the task list reports a missing value or an error. */
module Wrappers {

  /** A value that may be absent, e.g. the outcome of parsing a command-line argument as an integer. */
  datatype Option<+T> = None | Some(value: T)

  /** Either a value or an error that the caller must propagate. */
  datatype Result<+R, +E> = Success(value: R) | Failure(error: E)
}
