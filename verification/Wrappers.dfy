/** Optional values, used where the Go code returns nil or a value with an error. */
module Wrappers {
  datatype Option<+T> = None | Some(value: T)
}
