/** A value that may be absent: a failed read, an error return, a missing entry. */
module Options {
  datatype Option<+T> = None | Some(value: T)
}
