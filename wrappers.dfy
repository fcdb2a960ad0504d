/** Option and Result values shared by every module of the model. */
module Wrappers {

  /** A value that may be absent: `null` or `undefined` on the TypeScript side. */
  datatype Option<+T> = None | Some(value: T)

  /** The outcome of an operation that may throw: `Err` carries what was thrown. */
  datatype Result<+T, +E> = Ok(value: T) | Err(error: E)
}
