/** Small result types shared by the modules of the model. */
module Outcomes {

  /** Python's `None` or a value. */
  datatype Option<+T> = None | Some(value: T)

  /** An operation that either returns a value or raises an exception with a message
      (the message is what `str(e)` would give). */
  datatype Attempt<+T> = Returned(value: T) | Raised(message: string)

  /** A success value or a typed error. */
  datatype Result<+T, +E> = Ok(value: T) | Err(error: E)
}
