/** Optional values, standing in for Python's None and JavaScript's null/undefined. */
module Wrappers {
  datatype Option<T> = None | Some(value: T)

  /** An awaited call into a store or service: it resolves with a value, or rejects with a message. */
  datatype Outcome<T> = Resolved(value: T) | Rejected(message: string)
}
