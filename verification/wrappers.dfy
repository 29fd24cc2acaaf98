/** Failure-compatible wrappers used throughout the model. */
module Wrappers {

  /** A value that may be absent: a Go nil map, a nil URL flag, a missing file. */
  datatype Option<+T> = None | Some(value: T)

  /** The outcome of an operation that can refuse with an error. */
  datatype Result<+R, +E> = Success(value: R) | Failure(error: E)
}
