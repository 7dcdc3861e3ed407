/** Optional values and results with an error, used for JavaScript's
    optional parameters and for the exceptions the store throws. */
module Wrappers {

  datatype Option<+T> = None | Some(value: T)

  datatype Result<+T, +E> = Ok(value: T) | Err(error: E)
}
