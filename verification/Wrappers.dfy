/** Optional values (Go's zero time, SQL NULL) and results (Go's error returns). */
module Wrappers {

  datatype Option<+T> = None | Some(value: T)

  datatype Result<+T, +E> = Ok(value: T) | Err(error: E)

}
