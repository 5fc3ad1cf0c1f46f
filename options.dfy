/** A value that may be absent, like a key missing from a JSON record. */
module Options {
  datatype Option<T> = None | Some(value: T)
}
