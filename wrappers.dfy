/** Failure-compatible value types shared by the modules of this model. */
module Wrappers {

  /** A value that may be absent (`undefined` / `null` in the source). */
  datatype Option<+T> = None | Some(value: T)

  /** The outcome of a step that may throw: its value, or the message of the error it threw. */
  datatype Result<+T> = Ok(value: T) | Err(error: string)
}
