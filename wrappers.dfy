/** Failure-compatible result types used in place of Java's null returns and exceptions. */
module Wrappers {

  /** A value that may be absent (a Java reference that may be null). */
  datatype Option<+T> = None | Some(value: T)

  /** A value or the error that a Java method would have thrown instead. */
  datatype Result<+T, +E> = Success(value: T) | Failure(error: E)

  /** The outcome of a void Java method: it returned, or it threw. */
  datatype Outcome<+E> = Pass | Fail(error: E)
}
