/** A success-or-error value, standing in for a Python call that either
    returns or raises. */
module Wrappers {
  datatype Result<+T, +E> = Ok(value: T) | Err(error: E)
}
