/** Failure-compatible wrappers: PHP's `null` and thrown exceptions, made explicit. */
module Wrappers {

  /** A value or PHP's `null`. */
  datatype Option<+T> = None | Some(value: T)

  /** The outcome of a call that may throw: `Failure` carries the exception message. */
  datatype Result<+T, +E> = Success(value: T) | Failure(error: E)
}
