/** Optional values, standing for Python's `None` where a field may be unset. */
module Wrappers {

  datatype Option<+T> = None | Some(value: T)
}
