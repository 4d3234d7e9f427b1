/** Failure-carrying values shared by every module: the Python code signals
    absence with `None` and failure with exceptions; the model uses Option and
    Result instead. */
module Common {

  datatype Option<+T> = None | Some(value: T) {
    function GetOr(default: T): T {
      match this
      case Some(v) => v
      case None => default
    }
  }

  /** The exception classes the modelled code raises (or lets through). */
  datatype Error =
    | ValueError(reason: string)
    | TypeError(reason: string)
    | IndexError(reason: string)
    | ValidationError(reason: string)
    | TransportError(reason: string)

  datatype Result<+T> = Ok(value: T) | Err(error: Error)
}
