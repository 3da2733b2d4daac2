/** Option, Result and Outcome: the null values, return-or-throw results and
    pass-or-fail statuses of the PHP code. */
module Wrappers {

  /** A nullable value: None stands for PHP's null or for "not given". */
  datatype Option<+T> = None | Some(value: T) {
    function GetOr(default: T): T {
      match this
      case Some(v) => v
      case None => default
    }
  }

  /** The value an operation returns, or the exception it throws. */
  datatype Result<+T, +E> = Ok(value: T) | Err(error: E)

  /** An operation that returns nothing, or the exception it throws. */
  datatype Outcome<+E> = Pass | Fail(error: E)
}
