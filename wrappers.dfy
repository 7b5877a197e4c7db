/** Optional values, used wherever the program can come back without a result. */
module Wrappers {
  datatype Option<+T> = None | Some(value: T)
}
