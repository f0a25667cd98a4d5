/** Option and Result, used across the model. */
module Wrappers {

  /** A value that may be absent: `null`/`undefined` on the JavaScript side. */
  datatype Option<+T> = None | Some(value: T)

  /** The outcome of an operation that either produces a value or stops with a reason. */
  datatype Result<+R, +E> = Success(value: R) | Failure(error: E)
}
