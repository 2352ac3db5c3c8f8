/** The conventional optional value, used here for decode failures and for
    selector values that a multiplexer does not resolve. */
module Wrappers {

  datatype Option<+T> = None | Some(value: T)
}
