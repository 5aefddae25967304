/** Option, Result and Outcome, the failure-carrying wrappers used throughout the model. */
module Wrappers {

  datatype Option<+T> = None | Some(value: T) {
    function GetOr(default: T): T {
      match this
      case Some(v) => v
      case None => default
    }
  }

  datatype Result<+R, +E> = Ok(value: R) | Err(error: E)

  /** A step that either succeeds with no value or fails with a message. */
  datatype Outcome = Pass | Fail(message: string)
}
