/** The conventional Some/None datatype, used where Java passes a null `Duration`. */
module Wrappers {
  datatype Option<+T> = None | Some(value: T)
}
