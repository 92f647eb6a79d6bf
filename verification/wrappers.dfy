/** Failure-carrying datatypes shared by the whole model. */
module Wrappers {

  /** Python's "value or None". */
  datatype Option<+T> = None | Some(value: T)

  /** A value, or the exception that would escape to the caller instead. */
  datatype Result<+T, +E> = Ok(value: T) | Err(error: E)

  /** A value together with the warnings printed while computing it, oldest first. */
  datatype Logged<+T, +W> = Logged(value: T, log: seq<W>)
}
