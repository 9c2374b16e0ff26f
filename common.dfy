/** Small wrapper types shared by every module of the model. */
module Common {

  /** A possibly missing value; stands for a nullable pointer or a failed lookup. */
  datatype Option<+T> = None | Some(value: T)

  /** The outcome of an operation that can end in `fatalError`/`exit`. */
  datatype Result<+T, +E> = Ok(value: T) | Err(error: E)
}
