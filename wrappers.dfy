/** Optional values: `undefined`, `null` and "no match" results of the source become `None`. */
module Wrappers {
  datatype Option<+T> = None | Some(value: T)
}
