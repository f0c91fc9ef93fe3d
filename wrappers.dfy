/** Option and Result, the two failure-carrying shapes used across the model. */
module Wrappers {

  /** A value that may be absent: `undefined` or `null` in the TypeScript source. */
  datatype Option<+T> = None | Some(value: T)

  /** The outcome of a step that may throw `new Error(message)`. */
  datatype Result<+T> = Ok(value: T) | Err(message: string)
}
