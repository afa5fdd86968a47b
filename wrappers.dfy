/** Optional values: a node's text, a catalog entry's version. */
module Wrappers {
  datatype Option<+T> = None | Some(value: T)
}
