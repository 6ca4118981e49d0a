/** Optional values and operation results. */
module Wrappers {

  datatype Option<+T> = None | Some(value: T)

  /** The kinds of failure the store reports: the view moved on, or the request is wrong. */
  datatype Error = Conflict | Permanent

  datatype Result<+T> = Ok(value: T) | Err(error: Error)
}
