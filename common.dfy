/** The optional-value wrapper used throughout the model. */
module Wrappers {
  datatype Option<+T> = None | Some(value: T)
}

/** Facts about HTTP statuses shared by the token manager and the forwarder. */
module Http {
  /** The statuses on which `raise_for_status` raises: client (4xx) and server (5xx) errors.
      Every other status, 3xx included, is let through. */
  predicate IsHttpError(status: int) {
    400 <= status < 600
  }
}
