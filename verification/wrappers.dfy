/** The optional-value wrapper used for the record's optional fields and for
    "nothing happens" results. */
module Wrappers {

  datatype Option<+T> = None | Some(value: T)
}
