/** Option and Result types shared by the whole model. A failing operation of
    the backend throws an `Error` whose message is all the callers look at, so
    the error side of `Result` is the message text. */
module Wrappers {

  datatype Option<+T> = None | Some(value: T) {
    function GetOr(default: T): T {
      match this
      case Some(v) => v
      case None => default
    }
  }

  datatype Result<+T> = Ok(value: T) | Err(message: string)

  /** Identifiers of stored rows. The database hands out UUIDs; here every table
      hands out natural numbers from a counter, which keeps them unique. */
  type Id = nat

  /** Timestamps (`Date` values) are opaque instants, ordered as integers. */
  type Instant = int
}
