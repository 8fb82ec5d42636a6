/** Failure-carrying values used in place of the exceptions the bot raises. */
module Wrappers {

  datatype Option<+T> = None | Some(value: T)

  /** A computation that returns a value or fails with an error. */
  datatype Result<+R, +E> = Success(value: R) | Failure(error: E)

  /** A check that passes or fails with an error, carrying no value. */
  datatype Outcome<+E> = Pass | Fail(error: E)
}
