/** Optional values and results with an error message, used by every model in this project
    for the source's `None`/`undefined` values and for the exceptions it raises or throws. */
module Wrappers {

  datatype Option<+T> = None | Some(value: T) {
    function GetOr(default: T): T {
      match this
      case Some(v) => v
      case None => default
    }
  }

  /** `Failure` carries the message of the exception the source raises or throws. */
  datatype Result<+T> = Success(value: T) | Failure(error: string) {
    predicate IsFailure() {
      Failure?
    }

    function PropagateFailure<U>(): Result<U>
      requires Failure?
    {
      Failure(error)
    }

    function Extract(): T
      requires Success?
    {
      value
    }
  }
}
