/** Optional values, for operations whose Rust counterpart can panic. */
module Wrappers {
  datatype Option<+T> = None | Some(value: T)
}
