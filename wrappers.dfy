/** Optional values, standing for JavaScript's `null` where the hook keeps an object or nothing. */
module Wrappers {

  datatype Option<+T> = None | Some(value: T)
}
