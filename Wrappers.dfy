/** Option and Result, the failure-carrying wrappers used across the model. */
module Wrappers {

  datatype Option<+T> = None | Some(value: T)

  /** What an upstream client call gives back: a value or the client's error. */
  datatype Result<+R, +E> = Success(value: R) | Failure(error: E)
}
