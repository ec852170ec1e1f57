/** Optional values: Go's nil pointers and "zero or one" variadic arguments. */
module Wrappers {
  datatype Option<+T> = None | Some(value: T)
}
