/** Failure-compatible result types shared by the billing actions. */
module Wrappers {

  /** A value that may be absent: TypeScript's optional field or `T | null`. */
  datatype Option<+T> = None | Some(value: T) {
    function GetOr(default: T): T {
      match this
      case Some(v) => v
      case None => default
    }
  }

  /** The value an action resolves to, or the error it throws. */
  datatype Result<+T, +E> = Ok(value: T) | Err(error: E)

  /** The `{ success: true }` of an action that returns nothing else, or the error it throws. */
  datatype Outcome<+E> = Pass | Fail(error: E)
}
