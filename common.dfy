/** Shared wrappers: optional values, results and the errors the plugin can report. */
module Common {

  datatype Option<+T> = None | Some(value: T)

  /** The errors a list or get call can end with. */
  datatype Error =
    /** `connect` found no token; the message is the fixed text the plugin returns. */
    | ConfigurationError(message: string)
    /** An error returned by the remote GraphQL API (or by the transport underneath it). */
    | RemoteError(message: string)
    /** A Go run-time panic: a write through a nil pointer. */
    | NilPointerDereference(site: string)

  datatype Result<+T> = Success(value: T) | Failure(error: Error)

  /** The message `connect` returns when no token could be resolved. */
  const TokenMissingMessage: string :=
    "'token' must be set in the connection configuration. Edit your connection configuration file and then restart Steampipe"
}
