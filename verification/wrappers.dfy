/** Option and Result, the two failure-carrying shapes used across the model. */
module Wrappers {

  /** A value that may be absent (JavaScript's `undefined`, or `NaN` for a number). */
  datatype Option<+T> = None | Some(value: T)

  /** Either a value or an error message (a thrown `Error`). */
  datatype Result<+T> = Success(value: T) | Failure(error: string)
}
