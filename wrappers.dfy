/** Failure-carrying datatypes shared by the other modules. */
module Wrappers {

  datatype Option<+T> = None | Some(value: T)

  datatype Result<+R, +E> = Success(value: R) | Failure(error: E)

  /** The outcome of an operation that has no value to return, only success or an error. */
  datatype Outcome<+E> = Pass | Fail(error: E)
}
