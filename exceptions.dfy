/** The error taxonomy of the library (src/claws/exceptions.py and
    src/claws/validation/exceptions.py), the Python built-in exceptions the
    validators can raise, and the values that carry a success or an error. */
module Exceptions {

  /** The kind of exception a call raises. The first three are the library's
      own `ClawsError` subclasses; the others are raised by Python itself. */
  datatype ErrorKind =
    | UnsupportedFileTypeError
    | ValidationError
    | ValidationConfigError
    | AttributeError   // an attribute that does not exist is read
    | TypeError        // an ordering comparison with `None`
    | PatternError     // `re.compile` refuses a pattern (`re.error`)

  /** A raised exception: its class and its message. */
  datatype Error = Error(kind: ErrorKind, msg: string)

  datatype Option<+T> = None | Some(value: T)

  /** The outcome of a call that either returns a value or raises. */
  datatype Result<+T> = Ok(value: T) | Err(error: Error)

  /** The outcome of a call that returns nothing or raises (`check`, `_validate_setup`). */
  datatype Outcome = Pass | Fail(error: Error)
}
