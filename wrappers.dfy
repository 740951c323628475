/** Optional values and results with an error message. */
module Wrappers {
  datatype Option<+T> = None | Some(value: T)

  /** The outcome of an operation that can fail; a failure carries the Go error text. */
  datatype Result<+T> = Ok(value: T) | Err(msg: string)
}
