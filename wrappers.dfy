/** Option and Result: the model's stand-ins for Python's `None` and for
    exceptions that a caller sees as a failure value. */
module Wrappers {

  datatype Option<+T> = None | Some(value: T) {
    function GetOr(default: T): T {
      match this
      case Some(v) => v
      case None => default
    }
  }

  datatype Result<+T, +E> = Ok(value: T) | Err(error: E)
}
