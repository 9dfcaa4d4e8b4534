/** Failure-carrying results: the model's stand-in for Java exceptions and null references. */
module Wrappers {

  datatype Option<+T> = None | Some(value: T)

  datatype Result<+T, +E> = Success(value: T) | Failure(error: E)

  /** The outcome of a void Java method that may throw. */
  datatype Outcome<+E> = Pass | Fail(error: E)
}
