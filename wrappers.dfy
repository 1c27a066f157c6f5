/** Optional values: an attribute or uniform that has not been set yet. */
module Wrappers {
  datatype Option<+T> = None | Some(value: T)
}
