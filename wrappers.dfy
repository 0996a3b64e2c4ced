/** The optional value the build script's helpers return (Rust's `Option`). */
module Wrappers {

  datatype Option<+T> = None | Some(value: T)
}
