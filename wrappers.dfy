/** Optional values and error-carrying results shared by the other modules. */
module Wrappers {

  /** A value that may be missing: a NaN cell of a pandas column is `None`. */
  datatype Option<+T> = None | Some(value: T)

  /** The outcome of an operation that can raise: `Failure` carries the exception. */
  datatype Result<+R, +E> = Success(value: R) | Failure(error: E)
}
