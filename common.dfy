/** Small wrapper types shared by every module of the model. */
module Common {

  /** A value that may be absent (`undefined` / `null` in the web app). */
  datatype Option<+T> = None | Some(value: T) {
    function GetOr(default: T): T {
      match this
      case Some(v) => v
      case None => default
    }
  }

  /** The outcome of a request body that either returns a value or throws `new Error(message)`. */
  datatype Result<+T> = Ok(value: T) | Err(message: string)
}
