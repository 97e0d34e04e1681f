/** Optional values and results with an error case. */
module Wrappers {

  /** A value that may be absent (JavaScript `null`, `undefined` or `NaN` where it stands for "nothing"). */
  datatype Option<+T> = None | Some(value: T) {

    /** The carried value, or `default` when there is none. */
    function GetOr(default: T): T {
      match this
      case Some(v) => v
      case None => default
    }
  }

  /** The outcome of an operation that either yields a value or reports an error. */
  datatype Result<+R, +E> = Success(value: R) | Failure(error: E)
}
