/** Outcomes shared by the model: an optional value and the Python exceptions
    the modelled code can raise on its error paths. */
module Errors {

  datatype Option<+T> = None | Some(value: T)

  /** The exceptions the trainer and the network constructor can raise. */
  datatype PyError =
    | IndexError          // a label outside [-n, n) used as an index
    | ZeroDivisionError   // a division by a zero count or a zero capsule dimension
    | UnboundLocalError   // a loop variable read before any iteration assigned it

  datatype Result<+T> = Ok(value: T) | Err(error: PyError)

  /** A step that either completes or raises. */
  datatype Outcome = Pass | Fail(error: PyError)
}
