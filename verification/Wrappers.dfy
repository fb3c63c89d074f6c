// The option type shared by every part of the model, Go's "nil or a value", and the result of a
// call that can fail.
module Wrappers {
  datatype Option<+T> = None | Some(value: T)

  datatype Result<+T, +E> = Ok(value: T) | Err(error: E)
}
