/** Optional values, standing in for the nil-able references of the object layer
    (an absent class, a failed parse). */
module Wrappers {

  datatype Option<+T> = None | Some(value: T)
}
