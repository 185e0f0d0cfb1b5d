/** Optional values and results shared by the rest of the model. */
module Results {

  /** An optional value: `None` stands for an absent (undefined) property. */
  datatype Option<+T> = None | Some(value: T)

  /** The value of an operation, or the error it throws. */
  datatype Result<+T, +E> = Ok(value: T) | Err(error: E)
}
