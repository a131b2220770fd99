/** Optional values: a price, image or store that may be absent, and the saved list slot. */
module Wrappers {
  datatype Option<+T> = None | Some(value: T)
}
