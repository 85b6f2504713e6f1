/** Failure-carrying results shared by every module of the model. */
module Wrappers {

  /** A value that may be absent; `None` stands for JavaScript's `null`/`undefined`. */
  datatype Option<+T> = None | Some(value: T) {
    function GetOr(default: T): T {
      match this
      case Some(v) => v
      case None => default
    }
  }

  /** A promise that resolved with `value` or rejected with the message `error`. */
  datatype Result<+T> = Success(value: T) | Failure(error: string)

  /** A promise that carries no value: it resolved, or it rejected with `error`. */
  datatype Outcome = Pass | Fail(error: string)
}
