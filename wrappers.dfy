/** Failure-carrying results shared by the whole model. */
module Wrappers {

  /** A value that may be absent (`undefined` / `null` in the source). */
  datatype Option<+T> = None | Some(value: T) {
    function GetOr(default: T): T {
      match this
      case Some(v) => v
      case None => default
    }
  }

  /** The outcome of an operation that throws in the source: `Err` carries the message. */
  datatype Result<+T> = Ok(value: T) | Err(message: string)
}
