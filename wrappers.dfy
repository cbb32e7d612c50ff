/** The optional value Swift writes as `String?`. */
module Wrappers {

  datatype Option<+T> = None | Some(value: T)

}
