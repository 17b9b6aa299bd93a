/** Failure-compatible result types used across the model. */
module Wrappers {

  /** An optional value. */
  datatype Option<+T> = None | Some(value: T)

  /** A value or an error. */
  datatype Result<+R, +E> = Success(value: R) | Failure(error: E)

  /** Success without a value, or an error: a call that returns void or throws. */
  datatype Outcome<+E> = Pass | Fail(error: E)
}
