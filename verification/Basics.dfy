/** Types shared by every module of the model. */
module Basics {

  datatype Option<+T> = None | Some(value: T)

  /** What an operation hands back: a value, or the error it throws. */
  datatype Result<+T, +E> = Ok(value: T) | Err(error: E)

  /** An opaque row or actor identifier (a UUID, or `hostname:pid` for a worker). */
  datatype Id = Id(text: string)

  /**
   * How a call to the database or to an outside service ends for its caller:
   * answered, or failed with the effect not made, or failed with the effect made.
   */
  datatype Reply = Answered | LostBefore | LostAfter
}
