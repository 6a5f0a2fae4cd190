/** Optional values, used for the results that the source reports through an error return. */
module Wrappers {

  datatype Option<+T> = None | Some(value: T)

}
