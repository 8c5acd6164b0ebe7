/** Optional values, standing for JavaScript values that may be absent
    (`null` / `undefined`). */
module Wrappers {

  datatype Option<+T> = None | Some(value: T)
}
