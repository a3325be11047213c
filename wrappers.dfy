/** Optional values (PHP's nullable results) and results that carry an error message
    (PHP's thrown exceptions, caught by the caller). */
module Wrappers {

  datatype Option<+T> = None | Some(value: T)

  datatype Result<+T> = Ok(value: T) | Err(message: string)
}
