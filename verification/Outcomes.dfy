/** Values that stand for "maybe absent" and for the exceptions the runtime raises. */
module Outcomes {

  datatype Option<+T> = None | Some(value: T)

  /** Why an operation was refused. */
  datatype Error =
    | TypeMismatch      // TypeError: two CRDT types for one key, or a malformed payload
    | InvalidValue      // ValueError
    | Unavailable       // PersistenceUnavailableError: the repository rejected the transaction
    | Backpressure      // ReplicationBackpressureError
    | CausalUnavailable // CausalUnavailableError
    | KeyNotFound       // KEY_NOT_FOUND response
    | NoRoute           // NoRouteError

  datatype Result<+T> = Ok(value: T) | Err(error: Error)
}
