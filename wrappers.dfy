/** Optional values: a widget that returned nothing, a secret that is not configured. */
module Wrappers {
  datatype Option<+T> = None | Some(value: T)
}
