/** Swift's Optional and the success-or-thrown-error outcome of a throwing call. */
module Wrappers {

  /** Swift's `T?`. */
  datatype Option<+T> = None | Some(value: T) {

    /** The `??` operator: the wrapped value, or `default` when nil. */
    function GetOr(default: T): T {
      match this
      case Some(v) => v
      case None => default
    }
  }

  /** The outcome of a `throws` function: the returned value or the thrown error. */
  datatype Result<+R, +E> = Success(value: R) | Failure(error: E) {

    /** `try?`: the returned value, or nil when the call threw. */
    function ToOption(): Option<R> {
      match this
      case Success(v) => Some(v)
      case Failure(_) => None
    }
  }
}
