/** Failure-carrying values shared by the modules of this model: an optional value
    (a Java reference that may be null) and the outcome of an operation that may
    throw. */
module Wrappers {

  /** A value that may be absent; `None` stands for a Java `null`. */
  datatype Option<+T> = None | Some(value: T)

  /** The result of an operation that either returns a value or fails (throws). */
  datatype Result<+T, +E> = Ok(value: T) | Err(error: E)
}

/** The levels of the entries a component records in its status manager. */
module Status {

  datatype Level = Info | Warn | Error
}
