/** An optional value, used for the results of decoders and database calls that
    either produce a value or fail. */
module Wrappers {

  datatype Option<+T> = None | Some(value: T)
}
