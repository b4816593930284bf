/** Small failure-compatible helper types shared by the model. */
module Wrappers {

  /** A value that may be absent (Go's nil interface, a missing map entry). */
  datatype Option<+T> = None | Some(value: T) {
    function GetOr(default: T): T {
      match this
      case Some(v) => v
      case None => default
    }
  }

  /** The outcome of a call that returns only an `error`: nil, or an error with its message. */
  datatype Outcome = Ok | Fail(message: string)
}
