/** Option and Result, the two failure-carrying shapes the model is written with. */
module Wrappers {

  /** A value that may be absent: JavaScript's `undefined`/`null` next to a real value. */
  datatype Option<+T> = None | Some(value: T) {

    /** The value, or `default` when there is none. */
    function GetOr(default: T): T {
      match this
      case Some(v) => v
      case None => default
    }
  }

  /** The outcome of an operation that either yields a value or fails with an error. */
  datatype Result<+R, +E> = Ok(value: R) | Err(error: E)
}
