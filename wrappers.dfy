/** Failure-carrying values shared by every module of the model. */
module Wrappers {

  datatype Option<+T> = None | Some(value: T) {
    function GetOr(default: T): T {
      match this
      case Some(v) => v
      case None => default
    }
  }

  /** A Python call that either returns a value or raises; `error` is the exception's `str(e)`
      or, where the exception's class matters, a value describing it. */
  datatype Result<+T, +E> = Ok(value: T) | Err(error: E)

  /** A raised Python exception, where its class matters: the classes the model names, and
      any other class by its name. */
  datatype Exc =
    | ValueError(message: string)
    | TypeError(message: string)
    | FileNotFoundError(message: string)
    | Exception(name: string, message: string)
}
