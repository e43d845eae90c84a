/** Failure-carrying values shared by every part of the model. */
module Wrappers {

  /** An optional value: a Go nil reference, a JavaScript undefined field. */
  datatype Option<+T> = None | Some(value: T)

  /** A value or the error that replaced it (Go's `(value, error)` pair). */
  datatype Result<+T, +E> = Ok(value: T) | Err(error: E)
}
