/** A value that may be missing: a nullable column, an absent key. */
module Options {
  datatype Option<+T> = None | Some(value: T)
}
