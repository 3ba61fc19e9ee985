/** A value that may be absent, standing in for nil, null and Rust's Option. */
module Options {
  datatype Option<+T> = None | Some(value: T)
}
