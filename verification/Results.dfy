/** Optional values, and operations that may panic. */
module Results {

  datatype Option<+T> = None | Some(value: T)

  /** Result of an operation; `Panic` stands for a run-time panic, such as a slice out of range. */
  datatype Outcome<+T> = Ok(value: T) | Panic {
    predicate IsFailure() { Panic? }
    function PropagateFailure<U>(): Outcome<U> requires Panic? { Panic }
    function Extract(): T requires Ok? { value }
  }
}
