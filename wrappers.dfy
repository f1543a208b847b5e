/** Option and Result, the two failure-carrying shapes the model needs:
    Option stands for a JavaScript value that may be null or undefined,
    Result for a promise that resolves to a value or rejects with an error. */
module Wrappers {

  datatype Option<+T> = None | Some(value: T)

  datatype Result<+T, +E> = Ok(value: T) | Err(error: E)
}
