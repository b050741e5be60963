/** Optional values, and one fact about sequences that every module leans on. */
module Wrappers {
  /** `None` stands for JavaScript's `null` / `undefined`. */
  datatype Option<+T> = None | Some(value: T)

  /** Regrouping a concatenation, stated once so that callers need not re-derive it. */
  lemma Regroup<T>(x: seq<T>, y: seq<T>, z: seq<T>)
    ensures x + y + z == x + (y + z)
  {
  }
}
