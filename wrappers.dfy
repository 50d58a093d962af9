/** Small value types shared by every module of the model. */
module Wrappers {

  /** A value that may be absent: JavaScript's `undefined` / `null`. */
  datatype Option<+T> = None | Some(value: T) {
    function GetOr(default: T): T {
      match this
      case Some(v) => v
      case None => default
    }
  }

  /** How an `async` function settled: it returned, or it threw an `Error` with a message. */
  datatype Completion = Normal | Threw(message: string)
}
