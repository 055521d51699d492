/** Optional values, used for Go's nil-able error and interface results. */
module Wrappers {
  datatype Option<+T> = None | Some(value: T)
}
