/** Failure-carrying values used throughout the model: Python raises exceptions
    where this model returns `Failure(message)`. */
module Wrappers {

  datatype Option<+T> = None | Some(value: T) {
    /** The wrapped value, or `default` when absent. */
    function GetOr(default: T): T {
      match this
      case Some(v) => v
      case None => default
    }
  }

  /** `Failure(e)` stands for a raised exception whose `str(e)` is `e`. */
  datatype Result<+R, +E> = Success(value: R) | Failure(error: E)
}
