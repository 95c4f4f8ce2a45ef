/** Optional values, used for Python's `None` and for "parse may fail". */
module Wrappers {
  datatype Option<+T> = None | Some(value: T)
}
