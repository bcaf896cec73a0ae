/** Optional values: an empty result slot, a lookup that finds nothing. */
module Wrappers {
  datatype Option<+T> = None | Some(value: T)
}
