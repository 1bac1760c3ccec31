/** Small failure-compatible datatypes shared by every module of the model. */
module Wrappers {

  /** A value that may be missing. In the data layer `None` stands for SQL NULL,
      in request bodies for a field the client did not send. */
  datatype Option<+T> = None | Some(value: T)

  /** The outcome of a statement that the database can reject. */
  datatype Result<+T, +E> = Ok(value: T) | Err(error: E)
}
