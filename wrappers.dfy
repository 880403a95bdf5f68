/** Option and Result: a C pointer that may be NULL, and a call that may raise a Lua error. */
module Wrappers {

  datatype Option<+T> = None | Some(value: T)

  datatype Result<+T, +E> = Ok(value: T) | Err(error: E)
}
