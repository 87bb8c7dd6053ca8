/** Failure-carrying values shared by every module of the model. */
module Wrappers {

  /** A value that may be absent: a nil Go value or a null attribute. */
  datatype Option<+T> = None | Some(value: T) {
    /** The value, or `default` when absent. */
    function GetOr(default: T): T {
      match this
      case Some(v) => v
      case None => default
    }
  }

  /** Either a result or the error Go would return beside it. */
  datatype Result<+T, +E> = Ok(value: T) | Err(error: E)
}
