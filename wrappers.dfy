/** Optional values and results shared by the whole model. */
module Wrappers {

  /** Kotlin's nullable `T?` and Python's `None`-or-value. */
  datatype Option<+T> = None | Some(value: T) {
    /** Kotlin's elvis operator `this ?: default`. */
    function GetOr(default: T): T {
      match this
      case Some(v) => v
      case None => default
    }
  }

  /** The value of a call that may throw: a value or the exception it raised. */
  datatype Result<+T, +E> = Success(value: T) | Failure(error: E)
}
