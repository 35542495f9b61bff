/** Optional values and results with an error side, used for missing JSON
    fields, missing DataFrame cells and the exceptions the client raises. */
module Wrappers {

  datatype Option<+T> = None | Some(value: T)

  datatype Result<+T, +E> = Ok(value: T) | Err(error: E)
}
