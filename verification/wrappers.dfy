/** Failure-compatible helper datatypes shared by the voucher model. */
module Wrappers {

  /** A value that may be absent: models an optional field (`x?: T`) or a
      lookup that can return `null`. */
  datatype Option<+T> = None | Some(value: T)

  /** Either a value or the error an operation throws. */
  datatype Result<+T, +E> = Success(value: T) | Failure(error: E)
}
