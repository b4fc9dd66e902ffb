/** Option and Result, the two failure-carrying shapes used throughout the model. */
module Wrappers {

  /** A nullable value: `None` stands for SQL NULL or JavaScript `null`/`undefined`. */
  datatype Option<+T> = None | Some(value: T) {
    function GetOr(default: T): T {
      match this
      case Some(v) => v
      case None => default
    }
  }

  /** The outcome of an operation that may throw: `Err` carries what was thrown. */
  datatype Result<+T, +E> = Ok(value: T) | Err(error: E)
}
