/** Option and Result, the failure-carrying datatypes used throughout the model. */
module Wrappers {

  datatype Option<+T> = None | Some(value: T)

  /** A computation that either yields a value or throws/rejects with an error. */
  datatype Result<+R, +E> = Success(value: R) | Failure(error: E)
}
