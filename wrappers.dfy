/** Optional values and the outcome of a remote request. */
module Wrappers {

  /** A JavaScript value that may be `null` or `undefined` (None) or present. */
  datatype Option<+T> = None | Some(value: T)

  /** The outcome of an awaited request: its value, or the message of the error it threw. */
  datatype Result<+T> = Ok(value: T) | Err(message: string)
}
