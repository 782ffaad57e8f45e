/** Vocabulary shared by every module of the project. */
module Prelude {

  datatype Option<+T> = None | Some(value: T)

  /** How one replacement of a durable file ended, as seen by the disk. `FailedAfter` is the
      ambiguous case: the caller gets an error although the new content is in place. */
  datatype WriteOutcome = Written | FailedBefore | FailedAfter

  /** The content of a file after an attempt to replace it. */
  function AfterWrite<T>(before: T, next: T, outcome: WriteOutcome): T {
    if outcome == FailedBefore then before else next
  }

  function Min(a: int, b: int): int {
    if a < b then a else b
  }
}
