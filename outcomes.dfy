/** Option and Result shapes, and the identifier type, shared by the whole model. */
module Outcomes {

  /** A value that may be absent (Python's `None`). */
  datatype Option<+T> = None | Some(value: T)

  /** A value, or the message of the exception the source raises instead. */
  datatype Result<+T> = Ok(value: T) | Err(error: string)

  /** A UUID, kept as its text. */
  type Uuid = string
}
