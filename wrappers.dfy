/** Option and Result values shared by every module of the model. */
module Wrappers {

  datatype Option<+T> = None | Some(value: T)

  /** The outcome of a Go call returning `(value, error)`: an error is its message. */
  datatype Result<+T> = Ok(value: T) | Err(message: string)
}
