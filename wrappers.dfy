/** Optional values and results with an error path, used for the exceptions the
    pipeline raises and the external calls that may fail. */
module Wrappers {

  datatype Option<+T> = None | Some(value: T)

  datatype Result<+T, +E> = Ok(value: T) | Err(error: E)
}
