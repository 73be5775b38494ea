/** Option and Result, the failure-carrying values used throughout the model. */
module Wrappers {

  /** A value that may be missing: `null`/`undefined` in the modelled code. */
  datatype Option<+T> = None | Some(value: T)

  /** A value or the error that was thrown instead of it. */
  datatype Result<+T, +E> = Success(value: T) | Failure(error: E)
}
