/** The optional value used for a Java reference that may be null and for the
    exception a piece of processing logic may throw. */
module Wrappers {

  datatype Option<+T> = None | Some(value: T)
}
