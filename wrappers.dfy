/** Option and Result, the two sum types the model uses for absent values and for
    operations that either succeed or fail with exactly one error. */
module Wrappers {

  datatype Option<+T> = None | Some(value: T)

  datatype Result<+T, +E> = Ok(value: T) | Err(error: E)
}
