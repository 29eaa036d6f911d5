/** Optional values and fallible results, as used throughout the dashboard model. */
module Wrappers {

  /** A value that may be absent: a JS `null`/`undefined`, a missing field, or a non-finite number. */
  datatype Option<+T> = None | Some(value: T)

  /** The outcome of a data-gateway request: its payload, or the error it was rejected with. */
  datatype Result<+T> = Ok(value: T) | Err(message: string)
}
