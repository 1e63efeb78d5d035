/** Optional values and Go-style (value, error) returns. */
module Wrappers {

  datatype Option<+T> = None | Some(value: T)

  /** A result or the text of the Go `error` that was returned instead. */
  datatype Result<+T> = Ok(value: T) | Err(error: string)
}
