/** An optional value, standing for a field that may hold `None`. */
module Wrappers {

  datatype Option<+T> = None | Some(value: T)
}
