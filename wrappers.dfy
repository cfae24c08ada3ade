/** Option, Result and Outcome: the optional configuration value and the
    error returns that stand for Java's null and checked exceptions. */
module Wrappers {

  datatype Option<+T> = None | Some(value: T)

  /** Why a call on the store session threw a `RepositoryException`. */
  datatype StoreError =
    | SessionClosed   // the session was logged out: it is no longer live
    | StoreRejected   // the store refused the operation (a conflict, an I/O error)

  /** The result of a query that may throw. */
  datatype Result<+T> = Ok(value: T) | Err(error: StoreError)

  /** The result of a `void` operation that may throw. */
  datatype Outcome = Done | Failed(error: StoreError)
}
