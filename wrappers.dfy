/** Optional values: JavaScript's `null` / `undefined` and failed backend replies. */
module Wrappers {
  datatype Option<+T> = None | Some(value: T)
}
