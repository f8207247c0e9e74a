/** Failure-compatible wrappers used across the model. */
module Wrappers {

  /** An optional value: absent in the source is `undefined`, `null` or `NaN`. */
  datatype Option<+T> = None | Some(value: T)

  /** The outcome of an operation that may throw. */
  datatype Result<+T, +E> = Success(value: T) | Failure(error: E)
}
