/** Optional values and success/failure results shared by the modules of this model. */
module Wrappers {

  /** A value that may be absent: `undefined` in the original JavaScript. */
  datatype Option<+T> = None | Some(value: T) {
    /** The value, or `default` when absent (a JavaScript default parameter). */
    function GetOr(default: T): T {
      match this
      case Some(v) => v
      case None => default
    }
  }

  /** The outcome of code that either returns a value or throws with a message. */
  datatype Result<+T, +E> = Success(value: T) | Failure(error: E)
}
