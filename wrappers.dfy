/** Optional values and results, standing in for TypeScript's `undefined` and for thrown errors. */
module Wrappers {

  /** A value that may be absent (`undefined` in the original program). */
  datatype Option<+T> = None | Some(value: T) {

    /** The value, or `default` when absent (TypeScript's `x || default` on an optional array). */
    function GetOr(default: T): T {
      match this
      case Some(v) => v
      case None => default
    }
  }

  /** The outcome of a step that can throw. */
  datatype Result<+T> = Success(value: T) | Failure(error: string)
}
