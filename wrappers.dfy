/** Optional values: a parsed number that may be NaN, a currency that may not have been requested yet. */
module Wrappers {

  datatype Option<+T> = None | Some(value: T)
}
