/** Failure-carrying wrappers used throughout the model.
    A JavaScript `throw new Error(msg)` becomes `Err(msg)`; a value that may be
    `undefined` or `null` becomes an `Option`. */
module Outcomes {

  datatype Option<+T> = None | Some(value: T)

  /** The result of an operation that either returns a value or throws an Error
      carrying a message. */
  datatype Result<+T> = Ok(value: T) | Err(msg: string)

  /** A state transition that may also report an error; on error the state is
      the one the operation started from. */
  datatype Updated<+S> = Updated(state: S, error: Option<string>)
}
