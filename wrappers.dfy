/** Optional values and results with an error, shared by the other modules. */
module Wrappers {

  /** `None` stands for a value that is absent (JavaScript's `undefined`). */
  datatype Option<+T> = None | Some(value: T) {

    /** The value, or `default` when it is absent. */
    function GetOr(default: T): T {
      match this
      case Some(v) => v
      case None => default
    }
  }

  datatype Result<+T, +E> = Success(value: T) | Failure(error: E)
}
