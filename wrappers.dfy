/** Option and the outcome of an awaited service call. */
module Wrappers {

  /** A value that may be absent (`null` / `undefined` in the client). */
  datatype Option<+T> = None | Some(value: T)

  /**
   * What an awaited service call produced: the resolved value, or the
   * rejection, reduced to the `message` of the `Error` the service threw.
   */
  datatype Outcome<+T> = Ok(value: T) | Err(msg: string)
}
