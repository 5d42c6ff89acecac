/** Option and Result, as used throughout the model for nullable state and thrown errors. */
module Wrappers {

  /** A value that may be absent (`null` in the source). */
  datatype Option<+T> = None | Some(value: T)

  /** The outcome of an operation that may throw; `message` is the thrown Error's message. */
  datatype Result<+T> = Ok(value: T) | Err(message: string)
}
