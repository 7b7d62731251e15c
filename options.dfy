/** Rust's `Option`, shared by the day modules. */
module Options {
  datatype Option<+T> = None | Some(value: T)
}
