/** Failure-compatible wrappers shared by every module. */
module Wrappers {

  datatype Option<+T> = None | Some(value: T)

  /** A value or the fault that took its place; each owner picks its own kind of fault. */
  datatype Fallible<+T, +F> = Ok(value: T) | Err(fault: F) {
    predicate IsFailure() {
      Err?
    }

    function PropagateFailure<U>(): Fallible<U, F>
      requires Err?
    {
      Err(fault)
    }

    function Extract(): T
      requires Ok?
    {
      value
    }
  }
}

/** The faults of the accounting owner. */
module Results {
  import opened Wrappers

  /** The caller-visible fault classes the modelled operations raise. */
  datatype Fault =
    | InvalidInput
    | PermissionDenied
    | NotFound
    | Conflict
    | StaleVersion
    | BudgetUnavailable
    | PrerequisiteMissing
    | InternalError

  type Result<+T> = Fallible<T, Fault>
}
