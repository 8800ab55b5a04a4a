/** Option and Result types shared by the identifier model. */
module Wrappers {

  /** An optional value: the result of a parse that may fail. */
  datatype Option<+T> = None | Some(value: T)

  /** The outcome of a store operation: a value, or the error the promise rejects with. */
  datatype Result<+T, +E> = Ok(value: T) | Err(error: E)
}
