/** Optional values (Java's nullable references) and results of operations that can throw. */
module Wrappers {

  /** A value that may be absent: `None` models a Java `null`. */
  datatype Option<+T> = None | Some(value: T)

  /** The outcome of an operation that either returns a value or throws. */
  datatype Result<+T, +E> = Success(value: T) | Failure(error: E)
}
