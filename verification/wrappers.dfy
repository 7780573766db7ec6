/** Optional values, standing in for the nullable pointers and the
    "left unassigned" fields of the modelled C++ code. */
module Wrappers {

  datatype Option<+T> = None | Some(value: T)
}
