/** A value that may be missing: Go's nil, and the second result of a lookup. */
module Options {
  datatype Option<+T> = None | Some(value: T)
}
