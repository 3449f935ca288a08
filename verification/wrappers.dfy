/** Optional values, used for "no item with this key" and "nothing was posted". */
module Wrappers {
  datatype Option<+T> = None | Some(value: T)
}
