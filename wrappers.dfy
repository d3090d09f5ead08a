/** An optional value, used for parsers that may reject their input and for
    the "data" key that an agent event may or may not carry. */
module Wrappers {

  datatype Option<+T> = None | Some(value: T)

}
