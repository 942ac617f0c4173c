/** Optional values and the outcome of a computation that may raise. */
module Outcomes {

  datatype Option<+T> = None | Some(value: T) {
    function GetOr(default: T): T {
      match this
      case Some(v) => v
      case None => default
    }
  }

  /** What a Python exception would abort: the computation either yields a
      value or raises, and the caller decides what a raise turns into. */
  datatype Raises =
    | TypeMismatch      // TypeError / AttributeError: an operand of the wrong kind
    | DivisionByZero    // ZeroDivisionError

  datatype Result<+T> = Ok(value: T) | Err(error: Raises)
}
