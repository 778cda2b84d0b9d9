/** Optional values, for lookups that may find nothing and capabilities that may be absent. */
module Wrappers {

  datatype Option<+T> = None | Some(value: T)
}
