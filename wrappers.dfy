/** Optional values and results: a Go `(value, error)` pair becomes a Result. */
module Wrappers {

  datatype Option<+T> = None | Some(value: T)

  datatype Result<+T, +E> = Success(value: T) | Failure(error: E)
}

/** What the adapters can learn from a failed call into the goaviatrix client. */
module Remote {

  /** `goaviatrix.ErrNotFound`, the sentinel for "no such object", or any other error. */
  datatype ClientError = ErrNotFound | ErrOther
}
