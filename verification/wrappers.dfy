/** Optional values: an absent rule list, a catalog miss, a NaN parse. */
module Wrappers {

  datatype Option<+T> = None | Some(value: T)
}
