/** Option and Result, the failure-carrying values used throughout the model:
    `Option` for Swift optionals and Python `None`, `Result` for calls that throw. */
module Wrappers {

  datatype Option<+T> = None | Some(value: T) {
    function GetOr(default: T): T {
      match this
      case Some(v) => v
      case None => default
    }
  }

  datatype Result<+R, +E> = Success(value: R) | Failure(error: E) {
    /** Swift `try?`: the value when the call succeeded, nil when it threw. */
    function ToOption(): Option<R> {
      match this
      case Success(v) => Some(v)
      case Failure(_) => None
    }
  }
}
