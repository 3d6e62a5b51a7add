/** Option, Result and Outcome wrappers used across the model. */
module Wrappers {

  /** A value that may be absent, Python's `Optional[T]`. */
  datatype Option<+T> = None | Some(value: T) {
    function GetOr(default: T): T {
      match this
      case Some(v) => v
      case None => default
    }
  }

  /** The outcome of a call that either returns a value or raises. */
  datatype Result<+T, +E> = Ok(value: T) | Err(error: E)

  /** The outcome of a call that returns nothing or raises. */
  datatype Outcome<+E> = Pass | Fail(error: E)
}
