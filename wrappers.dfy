/** Optional values, for writes an operation may or may not perform. */
module Wrappers {

  datatype Option<+T> = None | Some(value: T)
}
