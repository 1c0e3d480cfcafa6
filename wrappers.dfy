/** Failure-carrying values shared by the modules of this model. */
module Wrappers {

  /** A value that may be absent (a missing dictionary key, an unset variable). */
  datatype Option<+T> = None | Some(value: T)

  /** The value of a computation, or the exception it raised. */
  datatype Result<+T, +E> = Success(value: T) | Failure(error: E)
}
