/** Optional values, used where the activity's code can fail or find nothing. */
module Wrappers {

  datatype Option<+T> = None | Some(value: T)
}
