/** The optional value used for lookups that may find nothing and for awaits that may time out. */
module Wrappers {

  datatype Option<+T> = None | Some(value: T)
}
