/** Optional values and the outcome of an operation that can raise. */
module Wrappers {

  datatype Option<T> = None | Some(value: T)

  /** Ok carries the value; Err carries the message the source raises. */
  datatype Result<T> = Ok(value: T) | Err(error: string)
}
