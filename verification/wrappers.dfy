/** Optional values and the outcome of a collaborator call that may throw. */
module Wrappers {

  /** A value that may be absent (JavaScript `undefined`). */
  datatype Option<T> = None | Some(value: T) {

    /** The value if present, otherwise `default` (a destructuring default). */
    function GetOr(default: T): T {
      match this
      case Some(v) => v
      case None => default
    }
  }

  /** The result of an awaited call: a value, or a rejection carrying the error's message. */
  datatype Result<T> = Success(value: T) | Failure(error: string)
}
