/** Failure-carrying values shared by the other modules. */
module Results {

  datatype Option<+T> = None | Some(value: T)

  /** A value, or the message of the exception the source would have thrown. */
  datatype Result<+T> = Ok(value: T) | Err(error: string)
}
