/** An optional value: the model's stand-in for a Python call that can raise `ValueError`. */
module Wrappers {

  datatype Option<+T> = None | Some(value: T)
}
