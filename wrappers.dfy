/** Option and Result, plus the Python exception kinds the modelled code can raise. */
module Wrappers {

  datatype Option<+T> = None | Some(value: T) {
    function GetOr(default: T): T {
      match this
      case Some(v) => v
      case None => default
    }
  }

  /** The exceptions the core raises instead of returning a value. */
  datatype Error =
    | KeyError(key: int)          // a gate number missing from the registry
    | AttributeError(name: string) // an attribute looked up on a value that has none by that name
    | MalformedState                // a stored session blob whose fields have JSON types the record cannot hold

  datatype Result<+T> = Ok(value: T) | Err(error: Error)
}
