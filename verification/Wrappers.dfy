/** What several modules share. */
module Wrappers {
  /** The value that may be absent: a nil pointer, an SQL NULL, a missing map entry. */
  datatype Option<+T> = None | Some(value: T)

  /** How a store call ended: done, failed without effect, or reported as failed although it took effect. */
  datatype Outcome = Ok | Lost | Applied {
    predicate Effective() {
      Ok? || Applied?
    }
  }
}
