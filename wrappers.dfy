/** The optional value used for first-match lookups and for errors. */
module Wrappers {

  datatype Option<+T> = None | Some(value: T)

}
