/** Option and Result values standing for JavaScript's `undefined` and for thrown errors. */
module Wrappers {

  /** `None` is an absent (undefined) value, `Some(v)` a present one. */
  datatype Option<+T> = None | Some(value: T) {

    /** The value, or `default` when absent: JavaScript's `x ?? default`. */
    function GetOr(default: T): T {
      match this
      case Some(v) => v
      case None => default
    }
  }

  /** A call that either returns `value` or throws `error`. */
  datatype Result<+T, +E> = Success(value: T) | Failure(error: E)

  /** A check that either passes or throws `error`. */
  datatype Outcome<+E> = Pass | Fail(error: E)
}
