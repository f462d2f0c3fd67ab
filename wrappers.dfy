/** Value stand-ins for Java's nullable references and checked exceptions. */
module Wrappers {

  /** A Java reference that may be null: None is null. */
  datatype Option<+T> = None | Some(value: T)

  /** The end of a void Java call: it returned normally, or it threw `error`. */
  datatype Outcome<+E> = Pass | Fail(error: E)
}
