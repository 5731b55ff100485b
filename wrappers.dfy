/** Failure-carrying values used in place of Ruby's exceptions and nil. */
module Wrappers {

  /** A value that may be absent (Ruby's nil). */
  datatype Option<+T> = None | Some(value: T)

  /** A computation that either yields a value or raises an error. */
  datatype Result<+R, +E> = Success(value: R) | Failure(error: E)

  /** A computation that yields nothing, or raises an error. */
  datatype Outcome<+E> = Pass | Fail(error: E)
}
