/** Option, result and outcome types shared by the other modules. */
module Wrappers {

  /** An optional value; `None` stands for JavaScript's `undefined` (or `null` where `??` treats both alike). */
  datatype Option<+T> = None | Some(value: T) {
    /** The value, or `default` when absent (JavaScript's `x ?? default`). */
    function GetOr(default: T): T {
      match this
      case Some(v) => v
      case None => default
    }
  }

  /** A value or the message of the `Error` that would have been thrown. */
  datatype Result<+T> = Success(value: T) | Failure(error: string)

  /** Completion of a statement that returns nothing: normal, or throwing an `Error` with a message. */
  datatype Outcome = Pass | Fail(error: string)
}
