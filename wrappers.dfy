/** Optional values and fallible results, shared by every module of the model. */
module Wrappers {

  /** A value that may be absent: an optional property of a TypeScript interface. */
  datatype Option<+T> = None | Some(value: T)

  /** The outcome of an operation that can fail with a message. */
  datatype Result<+T> = Ok(value: T) | Err(message: string)
}
