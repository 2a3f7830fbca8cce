/** Optional values, used for lookups that may fail and for `JSON.parse`, which may throw. */
module Wrappers {
  datatype Option<T> = None | Some(value: T)
}
