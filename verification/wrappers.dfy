/** The `Option` and `Result` datatypes shared by the model: `Option` stands for
    TypeScript's `T | null` / optional fields, `Result` for a call that either
    returns a value or throws an `Error` with a message. */
module Wrappers {

  /** `None` is JavaScript's `null` (or `undefined`); `Some(v)` a present value. */
  datatype Option<+T> = None | Some(value: T) {

    /** The value, or `default` when absent. */
    function GetOr(default: T): (r: T)
      ensures Some? ==> r == value
      ensures None? ==> r == default
    {
      match this
      case Some(v) => v
      case None => default
    }
  }

  /** A call that returns `value` or throws with the message `error`. */
  datatype Result<+R, +E> = Success(value: R) | Failure(error: E)
}
