/** Values shared by every module: optional values, what a call to the remote
    store resolves to, and the errors the hooks re-throw to their callers. */
module Results {

  /** A value that may be `undefined`/`null` in JavaScript. */
  datatype Option<+T> = None | Some(value: T) {
    /** `x || d` / `x ?? d` for an optional value. */
    function GetOr(default: T): T {
      if Some? then value else default
    }
  }

  /** What an awaited remote call resolves to: `{ data }` when `error` is null,
      or the error it reported. The data is an input of the model: the store
      itself is not modelled. */
  datatype Remote<+T> = Ok(data: T) | Err(cause: string)

  /** The errors a hook operation re-throws. */
  datatype Error =
    | NotAuthenticated          // `new Error('Usuário não autenticado')`
    | RemoteFailure(cause: string)

  /** The outcome of an operation that either resolves to a value or throws. */
  datatype Result<+T> = Success(value: T) | Failure(error: Error)
}
