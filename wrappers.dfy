/** Option and Result: the error paths of the Python code (exceptions, `None`) become values. */
module Wrappers {

  datatype Option<+T> = None | Some(value: T)

  datatype Result<+R, +E> = Ok(value: R) | Err(error: E)
}
