/** Optional values and results with an error, for Java's null and exceptions. */
module Wrappers {

  /** A value that may be absent (Java's `null` / an empty `Optional`). */
  datatype Option<+T> = None | Some(value: T)

  /** The normal return of a call, or the exception it throws. */
  datatype Result<+R, +E> = Success(value: R) | Failure(error: E)
}
