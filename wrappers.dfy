/** Optional values: the model of `std::optional`, and of a `bool` success flag paired with an out-parameter. */
module Wrappers {

  datatype Option<+T> = None | Some(value: T)
}
