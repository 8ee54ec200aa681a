/** Option and Result values for the model's absent fields and failing operations. */
module Wrappers {

  /** A value that may be absent: JavaScript's `undefined`/`null` versus a present value. */
  datatype Option<+T> = None | Some(value: T)

  /** The outcome of an operation that either produces a value or fails with a message. */
  datatype Result<+T> = Ok(value: T) | Err(message: string)
}
