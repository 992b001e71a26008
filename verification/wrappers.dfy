/** The optional value used throughout the model: an absent map key, a
    `NaN` from `parseInt`, or a timer handle that has been set to `null`. */
module Wrappers {

  datatype Option<+T> = None | Some(value: T)
}
