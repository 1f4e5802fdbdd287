/** Optional values, used for the results of library calls the model takes as given. */
module Wrappers {

  datatype Option<+T> = None | Some(value: T)
}
