/** An optional value: a query parameter, a header or a JSON key may be absent. */
module Wrappers {
  datatype Option<+T> = None | Some(value: T)
}
