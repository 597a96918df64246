/** Failure-carrying wrappers used across the model: Go's `(value, error)` pairs and nil-able values. */
module Wrappers {

  /** A value that may be absent (a Go nil reference, nil slice or missing map key). */
  datatype Option<+T> = None | Some(value: T) {
    function GetOr(default: T): T {
      match this
      case Some(v) => v
      case None => default
    }
  }

  /** A Go `(value, error)` return: either a value or the error's text. */
  datatype Result<+T, +E> = Ok(value: T) | Err(error: E)
}
