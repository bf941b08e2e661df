/** Optional values and results with an error, used in place of null and of thrown exceptions. */
module Wrappers {

  /** A value that may be absent (Java's null). */
  datatype Option<+T> = None | Some(value: T)

  /** Either a value or the exception that was raised instead. */
  datatype Result<+T, +E> = Success(value: T) | Failure(error: E)
}
