/** The optional value used for JavaScript's `undefined`-or-value fields
    and for parsers that may reject their input. */
module Wrappers {

  datatype Option<+T> = None | Some(value: T)
}
