/** Values that stand for JavaScript's optional values and for settled promises. */
module Outcomes {

  /** A value that may be missing (`undefined` or `null` in the source). */
  datatype Option<T> = None | Some(value: T)

  /** How an awaited call settled: it resolved with a value, or it was rejected
      (or threw) with an error whose message is `reason`. */
  datatype Outcome<T> = Resolved(value: T) | Rejected(reason: string)
}
