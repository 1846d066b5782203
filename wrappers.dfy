/** Optional values and fallible results, standing for Go's nil pointers,
    `ok` lookups and `(value, error)` returns. */
module Wrappers {
  datatype Option<T> = None | Some(value: T)

  datatype Result<T> = Ok(value: T) | Err(error: string)
}
