/**
 Failure-compatible result type shared by the planning modules.

 The planner has exactly two ways of not producing a plan: the win-rate
 solver rejects a non-positive parameter (a `ValueError` in tradeplan.py), or
 the candidate list is empty (the program warns "No Companies" and stops).
 */
module Outcomes {

  /** The distinguishable reasons a planning run stops without a plan. */
  datatype PlanError =
    | InvalidParameter  // trades per month, risk per trade or reward:risk is not positive
    | NoCompanies       // the candidate list is empty

  datatype Result<+T> = Ok(value: T) | Err(error: PlanError) {

    predicate IsFailure() {
      Err?
    }

    function PropagateFailure<U>(): Result<U>
      requires Err?
    {
      Err(error)
    }

    function Extract(): T
      requires Ok?
    {
      value
    }
  }
}
