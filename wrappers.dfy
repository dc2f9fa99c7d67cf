/** Failure-carrying values used in place of Java's null and exceptions. */
module Wrappers {

  /** A value or its absence (Java's `null`). */
  datatype Option<+T> = None | Some(value: T)

  /** A value or an error (a computation that may throw). */
  datatype Result<+T, +E> = Success(value: T) | Failure(error: E)

  /** The outcome of a `void` operation that may throw. */
  datatype Outcome<+E> = Pass | Fail(error: E)
}
