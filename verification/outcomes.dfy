/** Failure-compatible wrappers shared by every module of the model. */
module Outcomes {

  /** A present/absent value: a dictionary subscript that may miss. */
  datatype Option<+T> = None | Some(value: T)

  /**
   * The result of running a piece of the checking code. `Crash` stands for
   * any Python exception that is not caught where it is raised: it aborts the
   * whole check function, so everything the check had collected is lost.
   */
  datatype Result<+T> = Ok(value: T) | Crash {
    predicate IsFailure() { Crash? }

    function PropagateFailure<U>(): Result<U>
      requires Crash?
    {
      Crash
    }

    function Extract(): T
      requires Ok?
    {
      value
    }
  }

  /** What a check function returns: its list of error messages, or a crash. */
  type Outcome = Result<seq<string>>
}
