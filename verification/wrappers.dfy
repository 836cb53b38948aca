/** Optional value, used for "entry absent" lookups. */
module Wrappers {

  datatype Option<+T> = None | Some(value: T)
}
