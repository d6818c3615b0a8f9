/** An optional value: a JSON field that may be missing, or a storage slot that may be empty. */
module Options {
  datatype Option<+T> = None | Some(value: T)
}
