/** Optional values: Python's `None` and Qt's null parent. */
module Wrappers {

  datatype Option<+T> = None | Some(value: T)
}
