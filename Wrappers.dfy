/** Optional values and results with an error, for the source's `null`
    selections, `find` misses and thrown exceptions. */
module Wrappers {

  datatype Option<T> = None | Some(value: T)

  datatype Result<T, E> = Ok(value: T) | Err(error: E)
}
