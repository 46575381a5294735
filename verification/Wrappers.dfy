/** Optional values: a nullable column, a lookup that may miss, a worker that may have returned. */
module Wrappers {
  datatype Option<+T> = None | Some(value: T)
}
