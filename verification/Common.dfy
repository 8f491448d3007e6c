/** Small datatypes shared by the models of the runtime and of the mobile client. */
module Common {

  /** A value that may be absent: the source's `undefined`, `null` or missing row. */
  datatype Option<+T> = None | Some(value: T)

  /** The outcome of a call that may throw. */
  datatype Result<+T> = Ok(value: T) | Err
}
