/** Nullable values and thrown exceptions, as values. */
module Wrappers {

  /** A value that may be null in the original program. */
  datatype Option<+T> = None | Some(value: T) {
    function GetOr(default: T): T {
      match this
      case Some(v) => v
      case None => default
    }
  }

  /** Either a value, or the message of the exception the original program throws. */
  datatype Result<+T> = Ok(value: T) | Err(message: string)

  /** A step that either completes, or throws an exception with the given message. */
  datatype Outcome = Pass | Fail(message: string)
}
