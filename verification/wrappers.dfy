/** Failure-carrying datatypes shared by the other modules: `Option` for Python's
    `None`-or-value, `Result` for a value or the exception that replaced it. */
module Wrappers {

  datatype Option<+T> = None | Some(value: T) {

    /** Returns the value held in Some, or the given default for None. */
    function GetOr(default: T): T {
      match this
      case Some(v) => v
      case None => default
    }
  }

  datatype Result<+R, +E> = Success(value: R) | Failure(error: E)
}
