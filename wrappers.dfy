/** Optional values: Go's nil-able pointers, errors and raw messages. */
module Wrappers {
  datatype Option<+T> = None | Some(value: T)
}
