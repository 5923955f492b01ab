/** Optional values and results, used where the Go code has a nil pointer,
    a nil map or an error return. */
module Wrappers {

  datatype Option<+T> = None | Some(value: T)

  datatype Result<+T, +E> = Ok(value: T) | Err(error: E)
}
