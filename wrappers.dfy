/** Optional values and results with an error, as used throughout the model. */
module Wrappers {

  /** An optional value: TypeScript's `T | undefined` / `T | null` and `field?: T`. */
  datatype Option<+T> = None | Some(value: T) {
    function GetOr(default: T): T {
      match this
      case Some(v) => v
      case None => default
    }
  }

  /** The outcome of a call that either returns a value or throws an error. */
  datatype Result<+R, +E> = Success(value: R) | Failure(error: E)
}
