/** Failure-carrying datatypes used across the model. */
module Wrappers {

  /** A value that may be missing: a NaN cell of an optional column. */
  datatype Option<+T> = None | Some(value: T)

  /** The outcome of an operation that can raise in the script. */
  datatype Result<+R, +E> = Success(value: R) | Failure(error: E)
}
