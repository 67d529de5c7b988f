/** Optional values: Go's nil pointers, nil slices and missing map keys. */
module Wrappers {
  datatype Option<+T> = None | Some(value: T)
}
