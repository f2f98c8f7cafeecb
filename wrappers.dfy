/** Optional values, for a file that may fail to open and a parse that may fail. */
module Wrappers {
  datatype Option<+T> = None | Some(value: T)
}
