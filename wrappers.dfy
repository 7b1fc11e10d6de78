/** Optional values and success-or-failure results, shared by the file-system modules. */
module Wrappers {

  /** A value that may be missing: Java's nullable references. */
  datatype Option<+T> = None | Some(value: T)

  /** The outcome of an operation that may throw: Java's checked exceptions. */
  datatype Result<+T, +E> = Success(value: T) | Failure(error: E)
}
