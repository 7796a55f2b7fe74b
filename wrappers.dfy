/** Option for values the source represents as `null`/`undefined`, and Result for
    operations that either return a value or throw an error carrying a message. */
module Wrappers {

  datatype Option<+T> = None | Some(value: T) {
    function GetOr(default: T): T {
      match this
      case Some(v) => v
      case None => default
    }
  }

  /** `Err(msg)` stands for a thrown `ConvexError`/`Error` whose `message` is `msg`. */
  datatype Result<+T> = Ok(value: T) | Err(msg: string)

  /** Pass, or a failure whose message is `msg` (an operation that returns nothing or throws). */
  datatype Outcome = Pass | Fail(msg: string)
}
