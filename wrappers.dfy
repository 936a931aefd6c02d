/** Failure-compatible helper types shared by the modules of the model. */
module Wrappers {

  datatype Option<+T> = None | Some(value: T)

  /** A value, or the error that prevented computing it. */
  datatype Result<+T, +E> = Success(value: T) | Failure(error: E)

  /** The outcome of an operation that either completes or stops with an error. */
  datatype Outcome<+E> = Pass | Fail(error: E)
}
