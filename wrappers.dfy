/** Failure-compatible result types used by the spline model. */
module Wrappers {

  /** A value that may be absent: `undefined` in an options object. */
  datatype Option<+T> = None | Some(value: T)

  /** The outcome of an operation that may throw a DeveloperError. */
  datatype Result<+R, +E> = Success(value: R) | Failure(error: E)
}
