/** Optional values: a field that a decoded reply may lack, a lookup that may find nothing. */
module Wrappers {
  datatype Option<+T> = None | Some(value: T)
}
