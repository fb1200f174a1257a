/** Optional values, used for nullable fields, absent replies and store errors. */
module Wrappers {
  datatype Option<+T> = None | Some(value: T)
}
