/** Option and Result, and the Python exception classes the toolkit raises or lets through. */
module Wrappers {

  datatype Option<+T> = None | Some(value: T)

  datatype Result<+T> = Ok(value: T) | Err(error: Error)

  /** The built-in exception classes that reach a caller of the modelled code, by their Python names. */
  datatype Error =
    | ValueError
    | TypeError
    | LookupError
    | RuntimeError
    | OSError
    | NameError
    | UnboundLocalError
}
