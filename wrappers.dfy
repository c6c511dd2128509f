/** Option, Result and the exception kinds the modelled C# code can raise. */
module Wrappers {

  /** A nullable reference or an absent optional attribute. */
  datatype Option<+T> = None | Some(value: T)
  {
    /** The C# `??` operator: the value if present, otherwise the default. */
    function GetOr(default: T): T
    {
      match this
      case Some(v) => v
      case None => default
    }
  }

  /** The exception kinds that leave a modelled operation. */
  datatype Error =
    | InvalidData          // System.IO.InvalidDataException
    | ArgumentError        // System.ArgumentException
    | ArgumentNull         // System.ArgumentNullException
    | ArgumentOutOfRange   // System.ArgumentOutOfRangeException
    | DivideByZero         // System.DivideByZeroException
    | NullReference        // System.NullReferenceException
    | BadConnection        // the transport reports the device as gone
    | Timeout              // the transport received nothing in time
    | MalformedData        // the transport could not decode a frame batch
    | NotImplemented       // System.NotImplementedException
    | Failure(message: string)  // a plain System.Exception with a message

  /** Either a value or the exception that was thrown instead. */
  datatype Result<+T> = Ok(value: T) | Err(error: Error)
}
