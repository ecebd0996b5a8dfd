/** Optional values and success-or-failure results, used where the Java code
    returns null or throws. */
module Wrappers {

  /** A value that may be absent (the Java code returns `null`). */
  datatype Option<+T> = None | Some(value: T)

  /** The outcome of an operation that either returns a value or throws. */
  datatype Result<+R, +E> = Success(value: R) | Failure(error: E)

  /** The outcome of a `void` operation that may throw. */
  datatype Outcome<+E> = Pass | Fail(error: E)
}
