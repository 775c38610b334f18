/** Option and Result, the shapes used for Go's nil-able values and for the
    library's panics and error returns. */
module Wrappers {

  datatype Option<+T> = None | Some(value: T)

  datatype Result<+T, +E> = Ok(value: T) | Err(error: E)
}
