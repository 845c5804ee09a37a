/** The Task lifecycle of crates/aios-core/src/state.rs. */
module Lifecycle {

  datatype TaskState =
    | Submitted
    | Validating
    | Rejected
    | Queued
    | Running
    | WaitingApproval
    | Succeeded
    | Failed
    | Cancelled
  {
    predicate IsTerminal() {
      Rejected? || Succeeded? || Failed? || Cancelled?
    }

    predicate CanTransitionTo(next: TaskState) {
      || (Submitted? && next.Validating?)
      || (Validating? && (next.Rejected? || next.Queued?))
      || (Queued? && next.Running?)
      || (Running? && (next.WaitingApproval? || next.Succeeded? || next.Failed?))
      || (WaitingApproval? && (next.Running? || next.Failed?))
      || (!IsTerminal() && next.Cancelled?)
    }
  }

  datatype ErrorCode =
    | InvalidTask
    | IdempotencyConflict
    | CapabilityDenied
    | ApprovalExpired
    | BudgetExceeded
    | RuntimeRestarted
    | RuntimeUnavailable
    | InternalError
}
