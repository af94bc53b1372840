/** Optional values and error-or-value results, used wherever the source returns `null`,
    throws an error, or answers with a `{ success, error }` object. */
module Results {

  datatype Option<+T> = None | Some(value: T)

  datatype Result<+T, +E> = Ok(value: T) | Err(error: E)
}
