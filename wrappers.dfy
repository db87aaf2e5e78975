/** Optional and fallible results: Python's `None` and raised exceptions. */
module Wrappers {

  /** A value that may be absent (Python `None`). */
  datatype Option<+T> = None | Some(value: T)

  /** A value, or the message of the exception that replaced it. */
  datatype Result<+T> = Ok(value: T) | Err(message: string)
}
