/** Failure-carrying values used across the model: Python's `None` and the
    exceptions the modelled code raises. */
module Wrappers {

  /** Python's optional value: `None` or a present value. */
  datatype Option<+T> = None | Some(value: T)

  /** The exceptions raised by the modelled code. */
  datatype Exception =
    | ValueError(message: string)
    | IndexError
    | EmbeddingError
    | ClientError(message: string)

  /** A computation that either returns a value or raises an exception. */
  datatype Result<+T> = Ok(value: T) | Err(error: Exception)
}
