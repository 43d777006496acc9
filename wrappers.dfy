/** Option and Result, the failure-carrying values used throughout the model. */
module Wrappers {

  /** `None` stands for JavaScript's `undefined`/`null` result or a NaN number. */
  datatype Option<+T> = None | Some(value: T)

  /** `Err` stands for an exception that escapes an operation. */
  datatype Result<+T> = Ok(value: T) | Err(message: string)
}
