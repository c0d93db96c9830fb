/** Option and Result, the failure-carrying values used throughout the model. */
module Wrappers {

  /** A value that may be absent: a JavaScript `null`/`undefined` or a missing field. */
  datatype Option<+T> = None | Some(value: T)

  /** The outcome of a computation that may throw: the value or what was thrown. */
  datatype Result<+R, +E> = Success(value: R) | Failure(error: E)
}
