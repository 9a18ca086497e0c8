/** Failure-carrying results shared by the whole model. */
module Wrappers {

  /** A value that JavaScript may leave `undefined` (a missing key, a missing field). */
  datatype Option<+T> = None | Some(value: T) {
    function GetOr(default: T): T {
      match this
      case Some(v) => v
      case None => default
    }
  }

  /** The exceptions the modelled code can raise. */
  datatype JsError =
    | SyntaxError  // JSON.parse on malformed text
    | TypeError    // reading a property of `undefined`

  /** The outcome of an expression that may throw. */
  datatype Result<+T> = Ok(value: T) | Err(error: JsError)
}
