/** Optional values and success/failure results, used for Java's nullable values and exceptions. */
module Wrappers {

  /** A value that may be absent (Java's `null` or `Optional.empty()`). */
  datatype Option<+T> = None | Some(value: T)

  /** A computation that returns a value or fails with an error. */
  datatype Result<+T, +E> = Ok(value: T) | Err(error: E)

  /** A computation that returns nothing, or fails with an error (a `void` method that may throw). */
  datatype Outcome<+E> = Pass | Fail(error: E)
}
