/** Failure-compatible wrappers shared by every module of the model. */
module Wrappers {

  /** A value that may be absent: JavaScript's `undefined` / `null`. */
  datatype Option<+T> = None | Some(value: T) {

    /** `x ?? d` and `x || d` for a value that is either present or missing. */
    function GetOr(default: T): T {
      match this
      case Some(v) => v
      case None => default
    }
  }

  /** The outcome of an operation that may throw: a value, or the thrown error's message. */
  datatype Result<+T> = Ok(value: T) | Err(error: string)

  /** The empty tuple, for operations that succeed without a value (`Promise<void>`). */
  type Unit = ()

  /** A failure rethrown as `new Error(`${prefix}${error}`)`, where the caught value is an `Error` with message `cause`. */
  function Rethrown(prefix: string, cause: string): (msg: string)
    ensures prefix <= msg
  {
    prefix + "Error: " + cause
  }
}
