/** Failure-compatible result shapes used in place of Java's Optional and exceptions. */
module Wrappers {

  /** Java's Optional: a value that may be absent. */
  datatype Option<+T> = None | Some(value: T)

  /** The result of an operation that either returns a value or fails. */
  datatype Result<+T, +E> = Ok(value: T) | Err(error: E)

  /** The result of an operation that returns nothing (void) or fails. */
  datatype Outcome<+E> = Pass | Fail(error: E)
}
