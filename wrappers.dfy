/** The optional value the screen uses for "no anchor yet", "no location" and "no interval". */
module Wrappers {

  datatype Option<+T> = None | Some(value: T)
}
