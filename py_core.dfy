/** Values and failures of the Python runtime that the modelled code relies on. */
module PyCore {

  /** Python's `Optional[T]`: `None` or a value. */
  datatype Option<+T> = None | Some(value: T) {
    function GetOr(default: T): T {
      match this
      case Some(v) => v
      case None => default
    }
  }

  /** The exceptions the modelled code can raise. */
  datatype PyError =
    | ValueError(message: string)
    | KeyError(key: string)
    | AttributeError(message: string)
    | NameError(name: string)
    | IndexError(message: string)
    | UnboundLocalError(name: string)

  /** A computation that either returns a value or raises. */
  datatype Result<+T> = Ok(value: T) | Err(error: PyError)
}
