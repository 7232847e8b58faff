/** A value that may be absent: a nullable column, a nil pointer, a missing row. */
module Options {
  datatype Option<+T> = None | Some(value: T)
}
