/** Optional values, standing for JavaScript's `null` / `undefined` / absent keys. */
module Wrappers {

  datatype Option<+T> = None | Some(value: T)

}
