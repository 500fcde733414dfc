/** Option and Result, and the exceptions the modelled Python code can raise. */
module Wrappers {

  datatype Option<+T> = None | Some(value: T) {
    function GetOr(default: T): T {
      match this
      case Some(v) => v
      case None => default
    }
  }

  datatype Result<+T> = Success(value: T) | Failure(error: PyError)

  /** The Python exception classes the modelled code raises, by name. */
  datatype PyError =
    | ValueError       // bad literal for int(), bad hex or UUID text, array('B') range
    | IndexError       // data[i] past the end of a buffer
    | TypeError        // ord() of an empty slice, wrong argument count
    | KeyError         // a dictionary lookup that misses
    | OverflowError    // an integer that does not fit its packed width
    | Exception(msg: string)             // a bare `raise Exception(...)`
    | ParameterException(cause: PyError) // commands.ParameterException
    | Timeout          // the transport could not deliver the bytes asked for
}
