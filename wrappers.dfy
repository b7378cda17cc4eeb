/** Failure-carrying values used throughout the model in place of Java's null and exceptions. */
module Wrappers {

  /** A value that may be absent (Java's null). */
  datatype Option<+T> = None | Some(value: T)

  /** The value of a computation, or the exception that ended it. */
  datatype Result<+T, +E> = Ok(value: T) | Err(error: E)

  /** An action that either completes or fails with an error and gives no value. */
  datatype Outcome<+E> = Pass | Fail(error: E)
}
