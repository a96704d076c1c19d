/** Option and Result, the failure-carrying values the rest of the model returns
    where the Python code returns None or raises. */
module Wrappers {

  datatype Option<+T> = None | Some(value: T)

  datatype Result<+T, +E> = Ok(value: T) | Err(error: E) {
    function GetOr(default: T): T {
      match this
      case Ok(v) => v
      case Err(_) => default
    }
  }

  /** The outcome of a statement that returns nothing in Python but may raise. */
  datatype Outcome<+E> = Pass | Fail(error: E)
}
