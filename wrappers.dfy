/** Failure-carrying return types used in place of the exceptions the
    application raises. */
module Wrappers {

  datatype Option<+T> = None | Some(value: T)

  datatype Result<+R, +E> = Success(value: R) | Failure(error: E)

  /** The outcome of a check that produces no value, only an error or nothing. */
  datatype Outcome<+E> = Pass | Fail(error: E)
}
