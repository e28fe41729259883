/** Failure-carrying values used for every remote call and every lookup
    that the dashboard can miss. */
module Wrappers {

  datatype Option<+T> = None | Some(value: T) {
    function GetOr(default: T): T {
      match this
      case Some(v) => v
      case None => default
    }
  }

  /** Why an operation failed: a request that did not succeed (transport
      error or non-success status), an order id absent from the local
      store, or a script error caught by the handler's try/catch. */
  datatype Error = RequestFailed | NotFoundInLocalStorage | ScriptError

  datatype Result<+T> = Ok(value: T) | Err(error: Error)

  /** The outcome of a remote call whose response body is not used. */
  datatype Outcome = Pass | Fail(error: Error)
}
