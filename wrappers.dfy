/** Optional values and results with an error message. */
module Wrappers {

  /** A value that may be absent, like a key missing from a parsed JSON object. */
  datatype Option<+T> = None | Some(value: T) {

    /** The value, or `default` when absent (Python's `dict.get(key, default)`). */
    function GetOr(default: T): T {
      match this
      case Some(v) => v
      case None => default
    }
  }

  /** The outcome of a step that may raise: a value, or the exception's message. */
  datatype Result<+R> = Success(value: R) | Failure(error: string)
}
