/** Optional values (a Java reference that may be null) and results (a value, or the
    exception a Java method throws instead of returning). */
module Results {

  datatype Option<+T> = None | Some(value: T)

  datatype Result<+T, +E> = Ok(value: T) | Fail(error: E)
}
