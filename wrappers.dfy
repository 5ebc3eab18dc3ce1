/** Failure-compatible wrappers shared by the whole model. */
module Wrappers {

  /** A value that may be missing: an unset environment variable, or `NaN` from `parseInt`. */
  datatype Option<+T> = None | Some(value: T)

  /** The outcome of a step that either produces a value or reports errors. */
  datatype Result<+T, +E> = Success(value: T) | Failure(error: E)
}
