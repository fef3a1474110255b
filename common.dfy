/** Values shared by the pipeline's components. */
module Common {

  /** A value that may be absent: a Python `None`, an exception caught, a failed read. */
  datatype Option<+T> = None | Some(value: T)
}
