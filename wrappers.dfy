/** Optional values and results with an error, as the controllers use them:
    a lookup that finds nothing is `None`, a request that is refused is `Err`. */
module Wrappers {

  datatype Option<T> = None | Some(value: T)

  datatype Result<T, E> = Ok(value: T) | Err(error: E)
}
