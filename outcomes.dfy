/** Small wrappers for values that may be absent and for calls that may fail. */
module Outcomes {

  /** A value that may be absent (Python's `None`, or a missing dictionary key). */
  datatype Option<+T> = None | Some(value: T) {
    function GetOr(default: T): T
    {
      match this
      case Some(v) => v
      case None => default
    }
  }

  /** The result of a call into an external capability: a value, or the text of the exception it raised. */
  datatype Lookup<+T> = Found(value: T) | LookupFailed(message: string)

  /** The result of an HTTP GET: the status code of the response, or the text of the exception raised. */
  datatype HttpResponse = Status(code: int) | HttpFailed(message: string)
}
