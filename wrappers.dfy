/** Option and Result values for Python's `None` and for raised exceptions. */
module Wrappers {

  /** A value that may be absent: Python's `None`, or a key missing from a dict. */
  datatype Option<+T> = None | Some(value: T) {
    function GetOr(default: T): T {
      match this
      case Some(v) => v
      case None => default
    }
  }

  /** The outcome of a call that may raise: `Err` carries the exception's text. */
  datatype Result<+T> = Ok(value: T) | Err(error: string)
}
