/** Failure-carrying result types used for the error paths of the model. */
module Wrappers {

  datatype Option<+T> = None | Some(value: T)

  datatype Result<+T, +E> = Success(value: T) | Failure(error: E)

  /** The outcome of an operation that produces no value, only success or a failure reason. */
  datatype Outcome<+E> = Pass | Fail(error: E)
}
