/** Optional values and error returns, standing in for Java's nulls and thrown exceptions. */
module Results {

  /** A value that may be absent (a nullable reference in the source). */
  datatype Option<+T> = None | Some(value: T)

  /** A value, or the error the source would have thrown instead of returning one. */
  datatype Result<+R, +E> = Ok(value: R) | Err(error: E)

  /** A statement that either completes or throws. */
  datatype Outcome<+E> = Pass | Fail(error: E)
}
