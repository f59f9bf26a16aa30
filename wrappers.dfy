/** Optional values, standing for JavaScript's `null` versus a present value. */
module Wrappers {

  datatype Option<+T> = None | Some(value: T)

}
