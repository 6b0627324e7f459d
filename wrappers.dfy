/** Failure-carrying value types shared by the model. */
module Wrappers {

  /** A value that may be absent: Go's nil map, nil slice or nil error. */
  datatype Option<+T> = None | Some(value: T) {
    function GetOr(default: T): T {
      match this
      case Some(v) => v
      case None => default
    }
  }

  /** The outcome of an operation that either produces a value or fails
      with an error (a Go `(T, error)` pair where exactly one side is set). */
  datatype Result<+T, +E> = Ok(value: T) | Err(error: E)
}
