/** Optional values, standing in for JavaScript's `undefined` and for absent faults. */
module Wrappers {

  datatype Option<+T> = None | Some(value: T)
}
