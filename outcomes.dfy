/** Results and failures shared by the converter and the command-line layers. */
module Outcomes {

  datatype Option<+T> = None | Some(value: T)

  /** The ways a Python call in this program ends abnormally. */
  datatype Failure =
    | SystemExit(message: string)   // `raise SystemExit(message)`: abort with a message
    | ValueError                    // `float(s)` / `int(s)` on text that is not a number
    | ZeroDivisionError             // a float division by 0.0

  datatype Result<+T> = Ok(value: T) | Err(failure: Failure)
}
