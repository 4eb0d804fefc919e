/** Failure-carrying return values shared by the modules of this model. */
module Wrappers {

  datatype Option<+T> = None | Some(value: T)

  datatype Result<+T, +E> = Success(value: T) | Failure(error: E)

  /** An operation that either completes or reports (throws) an error. */
  datatype Outcome<+E> = Pass | Fail(error: E)
}
