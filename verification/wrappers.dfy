/** Optional values and the outcome of a remote call. */
module Wrappers {

  /** A value that may be absent: `null`/`undefined` on the client side. */
  datatype Option<+T> = None | Some(value: T)

  /** What the transport reports when a request does not succeed. The HTTP client
      itself is not modelled, so the error is carried through opaquely. */
  datatype ApiError = ApiError(message: string)

  /** The settled outcome of an awaited remote call: the resolved value, or the
      rejection that `await` rethrows. */
  datatype Result<+T> = Success(value: T) | Failure(error: ApiError)
}
