/** Optional values: a query parameter that may be absent, a user id that may be unset. */
module Wrappers {

  datatype Option<+T> = None | Some(value: T)
}
