/** The Some/None datatype used for the detector's nullable handles and for
    optional constructor arguments. */
module Wrappers {

  datatype Option<+T> = None | Some(value: T)
}
