/** Result and option values standing in for Python's exceptions and `None`. */
module Wrappers {

  /** The outcome of a call that may raise: `Err` carries the exception's text (`str(e)`). */
  datatype Result<+T> = Ok(value: T) | Err(msg: string)

  datatype Option<+T> = None | Some(value: T)
}
