/** Option, used for the nullable values of the checkout script (a zone's
    last entry time, the intervention start time) and for a zone whose page
    element is missing. */
module Wrappers {
  datatype Option<+T> = None | Some(value: T)
}
