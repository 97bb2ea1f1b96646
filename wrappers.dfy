/** Optional values and results with an error message, used for the parser's
    `None` values and for the one error the builder raises. */
module Wrappers {

  datatype Option<+T> = None | Some(value: T)

  datatype Result<+T, +E> = Ok(value: T) | Err(error: E)
}
