/** Failure-compatible wrappers shared by the model. */
module Wrappers {

  /** A value that may be absent (Python's `None`). */
  datatype Option<+T> = None | Some(value: T) {
    function GetOr(default: T): T {
      match this
      case Some(v) => v
      case None => default
    }
  }

  /** A value, or the message of the exception that replaced it. */
  datatype Result<+T> = Ok(value: T) | Err(error: string)
}
