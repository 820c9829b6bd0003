/** Failure-carrying values used throughout the model. `Err` carries the error
    text the Go code builds with fmt.Errorf (the outer text only; the wrapped
    cause after ": %w" is not modelled). */
module Wrappers {

  datatype Option<T> = None | Some(value: T) {
    function GetOr(default: T): T {
      match this
      case Some(v) => v
      case None => default
    }
  }

  datatype Result<T> = Ok(value: T) | Err(msg: string)

  /** An operation with no result value: success, or an error text. */
  datatype Outcome = Pass | Fail(msg: string)
}
