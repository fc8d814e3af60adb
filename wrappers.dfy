/** Failure-compatible wrappers shared by every module of the model:
    Option stands for a Go reference that may be nil, Result for a Go
    (value, error) pair. */
module Wrappers {

  datatype Option<+T> = None | Some(value: T) {
    /** The value, or `default` for None. */
    function GetOr(default: T): T {
      match this
      case Some(v) => v
      case None => default
    }
  }

  datatype Result<+T, +E> = Ok(value: T) | Err(error: E)
}
