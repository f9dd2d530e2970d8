/** Option and Result, used for the nullable values and the thrown errors of the source. */
module Wrappers {

  /** A value that may be absent (`null` / `undefined` in the source). */
  datatype Option<+T> = None | Some(value: T) {
    function GetOr(default: T): T {
      match this
      case Some(v) => v
      case None => default
    }
  }

  /** The outcome of an operation that can throw: a value, or the error's message. */
  datatype Result<+T> = Ok(value: T) | Err(message: string)
}
