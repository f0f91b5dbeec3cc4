/** The conventional optional value, used for the "never saved" snapshot and for a screen that panics. */
module Wrappers {

  datatype Option<+T> = None | Some(value: T)
}
