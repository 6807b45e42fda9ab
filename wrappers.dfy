/** Optional values and results: a JavaScript `null`/`undefined`/`NaN` is `None`. */
module Wrappers {

  datatype Option<+T> = None | Some(value: T) {

    /** The value, or `default` when absent. */
    function GetOr(default: T): T {
      match this
      case Some(v) => v
      case None => default
    }
  }

  /** The outcome of a call that may throw: its value, or the error's message. */
  datatype Result<+T> = Ok(value: T) | Err(message: string)
}
