/** Failure-carrying datatypes shared by the model, and the two kinds of
    exception the temperature type raises. */
module Wrappers {

  datatype Option<+T> = None | Some(value: T)

  /** Why a ValueError was raised. */
  datatype Fault =
    | EmptyInput   // the stripped construction string is empty
    | BadScale     // a scale letter outside c C f F k K, or a scale string of length other than 1
    | BadNumber    // the numeric part before the scale letter does not parse

  /** Python's TypeError (wrong argument type) and ValueError (right type, bad content). */
  datatype Error = TypeError | ValueError(fault: Fault)

  datatype Result<+T> = Ok(value: T) | Err(error: Error)
}
