/** The Python exceptions the modelled code can raise, a result type that
    carries either a value or one of them, and an option type for arguments
    that may be None. */
module Outcomes {

  datatype Error =
    | ValueError(msg: string)
    | ZeroDivisionError
    | IndexError

  datatype Result<+T> = Ok(value: T) | Err(error: Error)

  datatype Option<+T> = None | Some(value: T)
}
