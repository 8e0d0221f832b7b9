/** Option and Result values standing in for JavaScript's null/undefined and for
    thrown exceptions (JavaScript `throw new Error(...)`, Python `raise ValueError(...)`). */
module Wrappers {

  datatype Option<+T> = None | Some(value: T) {
    function GetOr(default: T): T {
      match this
      case Some(v) => v
      case None => default
    }
  }

  /** `Err(message)` is an exception carrying the source's own message. */
  datatype Result<+T> = Ok(value: T) | Err(message: string)
}
