/** Optional values: a lookup that finds nothing, a capability that fails. */
module Wrappers {

  datatype Option<+T> = None | Some(value: T)
}
