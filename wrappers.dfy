/** Option and Result, the value-level stand-ins for Python's None and raised exceptions. */
module Wrappers {

  datatype Option<+T> = None | Some(value: T) {
    function GetOr(default: T): T {
      match this
      case Some(v) => v
      case None => default
    }
  }

  /** `Err(msg)` stands for an exception whose `str()` is `msg`. */
  datatype Result<+T> = Ok(value: T) | Err(error: string)
}
