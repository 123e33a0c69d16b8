/** Option, and the outcome of an operation that may be refused. */
module Wrappers {
  datatype Option<+T> = None | Some(value: T)

  /** Why the control plane refuses an operation. */
  datatype AgentError =
    | InvalidTransition
    | InvalidInput
    | Conflict
    | NotFound
    | Duplicate
    | SchedulerFrozen
    | Archived
    | Interrupted
    | External

  datatype Result<+T> = Ok(value: T) | Err(error: AgentError)

  /** What holds once and survives every step holds from then on. */
  lemma {:induction false} StaysTrue(holds: seq<bool>, n: nat, m: nat)
    requires n <= m < |holds| && holds[n]
    requires forall k :: n <= k < m && holds[k] ==> holds[k + 1]
    ensures holds[m]
    decreases m - n
  {
    if n < m {
      StaysTrue(holds, n, m - 1);
      assert holds[m - 1 + 1];
    }
  }
}
