/** Option and Result, the failure-carrying values used throughout the model. */
module Wrappers {

  datatype Option<+T> = None | Some(value: T)

  /** A computation that either produces a value or fails with the message the source throws. */
  datatype Result<+R, +E> = Success(value: R) | Failure(error: E)
}
