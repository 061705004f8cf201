/** Failure-carrying wrappers shared by the other modules. */
module Wrappers {

  /** A value that may be missing (Ruby's nil). */
  datatype Option<+T> = None | Some(value: T)

  /** The outcome of an operation that can raise: a value, or the error raised. */
  datatype Result<+T, +E> = Ok(value: T) | Err(error: E)
}
