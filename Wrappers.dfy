/** Failure-carrying wrappers used by the rest of the model. */
module Wrappers {

  /** A value that may be absent. */
  datatype Option<+T> = None | Some(value: T)

  /** The outcome of an operation that may fail with an error message. */
  datatype Result<+T> = Ok(value: T) | Err(error: string)
}
