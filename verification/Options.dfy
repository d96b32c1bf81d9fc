module Options {
  // A value that may be absent: a failed check, a missing entry, an unset field.
  datatype Option<+T> = None | Some(value: T)
}
