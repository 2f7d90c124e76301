/** Absent-or-present values and success-or-error results, shared by all modules. */
module Wrappers {

  /** Kotlin's nullable `T?`: `None` is `null`. */
  datatype Option<+T> = None | Some(value: T) {
    /** The `?:` (elvis) operator: the value, or `default` when null. */
    function GetOr(default: T): T {
      match this
      case Some(v) => v
      case None => default
    }
  }

  /** A value, or the exception the Kotlin code throws instead of returning. */
  datatype Result<+R, +E> = Success(value: R) | Failure(error: E)
}
