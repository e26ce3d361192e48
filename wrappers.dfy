/** Failure-carrying values shared by the whole model. */
module Wrappers {

  /** A value that may be absent: a missing dictionary key, a falsy JavaScript field. */
  datatype Option<+T> = None | Some(value: T) {
    function GetOr(default: T): T {
      match this
      case Some(v) => v
      case None => default
    }
  }

  /** The result of something that either succeeds or raises with a message. */
  datatype Outcome = Success | Failure(message: string)

  /**
   * An HTTP-style reply: a JSON body, or an error object `{'error': message}`
   * sent with a 4xx/5xx status code.
   */
  datatype Response<+T> = Ok(body: T) | Error(code: nat, message: string)
}
