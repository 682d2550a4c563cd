/** The optional value used for lookups that may miss (a row that is not there,
    a header that was not sent, a JSON field that was left out). */
module Wrappers {
  datatype Option<+T> = None | Some(value: T)
}
