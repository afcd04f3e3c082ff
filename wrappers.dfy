/** Failure-compatible wrappers shared by every module of the model. */
module Wrappers {

  /** A value that may be missing: `undefined`/`null` on the TypeScript side. */
  datatype Option<+T> = None | Some(value: T) {
    function GetOr(default: T): T {
      match this
      case Some(v) => v
      case None => default
    }
  }

  /** The outcome of a computation that can throw. */
  datatype Result<+T, +E> = Ok(value: T) | Err(error: E)
}
