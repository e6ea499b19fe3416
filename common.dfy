/**
 * Shared result and error types.
 *
 * Python raises exceptions; the model returns them as values. `Error` lists
 * the exception kinds the modelled code can raise or catch.
 */
module Common {

  datatype Option<+T> = None | Some(value: T) {
    function GetOr(default: T): T {
      match this
      case Some(v) => v
      case None => default
    }
  }

  datatype Result<+T> = Ok(value: T) | Err(error: Error)

  datatype Error =
    | KeyError(key: string)        // `d[k]` on a dict without `k`
    | TypeError                    // subscripting, assigning into or iterating a value of the wrong type
    | AttributeError               // `.get`, `.update`, `.items`, `.pop` on a value that is not a dict
    | ValueError                   // tuple unpacking of the wrong arity; `get_arns` on a type without arns
    | PolicyExecutionError         // an invalid config source query
    | ClientError                  // a remote call failed with a client error (caught by `get_resources`)
    | RemoteError                  // any other exception a remote call raises
    | SchemaError(field: string)   // filter parameters rejected by the filter's schema
    | ResourceLimitExceeded(kind: string)  // a policy selected more resources than its limit allows
}
