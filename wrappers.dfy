/** Failure-carrying values shared by every module: Python's `None`/value
    and exception-or-value outcomes. */
module Wrappers {

  datatype Option<+T> = None | Some(value: T) {
    function GetOr(default: T): T {
      match this
      case Some(v) => v
      case None => default
    }
  }

  /** An outcome that either produced a value or raised. */
  datatype Result<+T, +E> = Ok(value: T) | Err(error: E)
}
