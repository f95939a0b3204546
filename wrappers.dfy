/** Optional values: a missing map entry or table cell, where the source returns null. */
module Wrappers {
  datatype Option<+T> = None | Some(value: T)
}
