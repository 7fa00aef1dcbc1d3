/** A value that may be missing, in place of null pointers and reserved numbers. */
module Options {
  datatype Option<+T> = None | Some(value: T)
}
