/** Optional values, used for lookups that may find nothing and for inputs that may be absent. */
module Wrappers {

  datatype Option<+T> = None | Some(value: T)
}
