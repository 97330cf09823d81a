/** Optional values and success-or-failure results, shared by every module. */
module Wrappers {

  /** A value that may be absent: the model's stand-in for JavaScript's null or undefined. */
  datatype Option<+T> = None | Some(value: T)

  /** The outcome of an operation that may throw: a value, or the error it throws. */
  datatype Result<+R, +E> = Success(value: R) | Failure(error: E)
}
