/** Optional values: JavaScript's `undefined`/`null` and "field absent". */
module Wrappers {
  datatype Option<+T> = None | Some(value: T)
}
