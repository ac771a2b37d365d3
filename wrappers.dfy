/** Error results for the exceptions the generator can raise. */
module Wrappers {

  /** The Python exceptions that escape the generator, one constructor per cause. */
  datatype Error =
    | InvalidIntLiteral(literal: string)   // int() given a string that is not a decimal numeral
    | HourOutOfRange(hour: int)            // datetime.replace with an hour outside 0..23
    | MinuteOutOfRange(minute: int)        // datetime.replace with a minute outside 0..59

  datatype Option<+T> = None | Some(value: T)

  /** The outcome of an operation that either returns a value or raises. */
  datatype Result<+T> = Ok(value: T) | Err(error: Error)
}
