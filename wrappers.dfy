/** Optional values: Python's None stands for an absent argument or a failed conversion. */
module Wrappers {

  datatype Option<+T> = None | Some(value: T)
}
