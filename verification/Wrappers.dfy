/** Optional values, results, the errors of the transport, and bytes. */
module Wrappers {
  datatype Option<+T> = None | Some(value: T)

  datatype Result<+T, +E> = Ok(value: T) | Err(error: E)

  /** A call into the hardware interface failed, or a request did. */
  datatype TransportError = IbvError(errno: nat) | WorkError(status: nat)

  type byte = x: nat | x < 0x100
}
