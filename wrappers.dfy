/** Option and Result values shared by the model's modules. */
module Wrappers {

  datatype Option<+T> = None | Some(value: T)

  /** The outcome of a decoder: a value or a diagnostic message. */
  datatype Result<+T> = Ok(value: T) | Err(message: string)
}
