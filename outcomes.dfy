/** Optional values and error-or-value results shared by the feed and the resolvers. */
module Outcomes {

  /** A value that may be absent (`null`/`undefined` in the source). */
  datatype Option<+T> = None | Some(value: T)

  /** What a resolver returns: the record it produced, or the error it threw. */
  datatype Result<+T, +E> = Ok(value: T) | Err(error: E)
}
