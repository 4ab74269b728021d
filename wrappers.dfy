/** Optional values, used where the tracker may have nothing to give back. */
module Wrappers {
  datatype Option<+T> = None | Some(value: T)
}
