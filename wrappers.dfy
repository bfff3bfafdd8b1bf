/** Small failure-compatible datatypes shared by the model. */
module Wrappers {

  /** A value that may be absent: an optional field of a record, or `T | null`. */
  datatype Option<+T> = None | Some(value: T)

  /** Whatever a failed client call threw. The stores never look inside it:
      they only log it and, for write actions, re-raise it unchanged. */
  datatype Failure = Failure(cause: string)

  /** The outcome of one awaited client call: the payload it resolved to,
      or the failure it rejected with. For a store action it is also what
      the caller observes: a returned value or a re-raised failure. */
  datatype Result<+T> = Ok(value: T) | Err(failure: Failure)
}
