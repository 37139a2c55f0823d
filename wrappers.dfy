/** Values shared by every module of the model. */
module Wrappers {

  /** A JavaScript value that may be `undefined` or `null`. */
  datatype Option<+T> = None | Some(value: T)

  /** The JSON response of a route handler: its HTTP status and either the
      success body or the `error` message. */
  datatype Reply<+T> = Ok(status: int, value: T) | Err(status: int, error: string)
}
