/** Optional values: JavaScript's `undefined`, `null` and absent keys. */
module Wrappers {

  datatype Option<+T> = None | Some(value: T)
}
