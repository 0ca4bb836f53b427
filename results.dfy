/** Success-or-fault results for operations that the source lets raise. */
module Results {

  datatype Result<+T, +E> = Ok(value: T) | Err(error: E)
}
