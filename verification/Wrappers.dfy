/** What several modules share: optional values, success and failure, the names of a resource. */
module Wrappers {
  datatype Option<+T> = None | Some(value: T)

  datatype Result<+R, +E> = Ok(value: R) | Err(error: E)

  /** The names a request carries; the server copies them into Established. */
  datatype Key = Key(service: string, resource: string)
}
