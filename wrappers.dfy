/** Option and Result: absent keys and raised exceptions of the modelled Python code. */
module Wrappers {

  datatype Option<+T> = None | Some(value: T) {
    /** The dictionary-style `.get(key, default)`. */
    function GetOr(default: T): T {
      match this
      case Some(v) => v
      case None => default
    }
  }

  datatype Result<+T, +E> = Ok(value: T) | Err(error: E)
}
