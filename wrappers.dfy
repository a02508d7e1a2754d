// The optional-value and value-or-error types the model uses for Python's
// `None` and for an exception raised from a call.
module Wrappers {

  datatype Option<T> = None | Some(value: T)

  datatype Result<T, E> = Ok(value: T) | Err(error: E)
}
