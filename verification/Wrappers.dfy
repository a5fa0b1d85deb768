/** The failure-carrying shapes: Go's "value, ok" and "value, err" results, and the fate of a remote call. */
module Wrappers {
  datatype Option<+T> = None | Some(value: T)

  datatype Result<+T> = Ok(value: T) | Err(error: string)

  // Delivered: the call takes effect and its response arrives.  Refused: it fails before taking
  // effect.  Lost: it takes effect, but the caller sees an error.
  datatype Fault = Delivered | Refused | Lost
}
