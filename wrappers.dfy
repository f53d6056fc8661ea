/** Failure-carrying datatypes used to model the exceptions the app raises. */
module Wrappers {

  /** A value that may be absent. */
  datatype Option<+T> = None | Some(value: T)

  /** The value of a computation that may raise an exception instead. */
  datatype Result<+T, +E> = Success(value: T) | Failure(error: E)

  /** The outcome of a check that either passes or raises an exception. */
  datatype Outcome<+E> = Pass | Fail(error: E)
}
