/**
 Shared vocabulary of the runtime: statuses, error codes, and the lifecycle table
 that the documentation promises for `execution_status`.
 */
module Domain {

  datatype Option<+T> = None | Some(value: T)

  datatype Result<+T> = Ok(value: T) | Err

  /** Identifiers of clients, principals, workers and evaluations. */
  type Ident = nat

  /** Instants and durations, in seconds. */
  type Time = real

  datatype ExecutionStatus = Queued | Running | RetryScheduled | Succeeded | Failed | DeadLettered

  datatype EvaluationStatus = NotRun | Pending | Passed | NotPassed | EvaluationError

  predicate Terminal(status: ExecutionStatus) {
    status.Succeeded? || status.Failed? || status.DeadLettered?
  }

  predicate Active(status: ExecutionStatus) {
    status.Queued? || status.Running? || status.RetryScheduled?
  }

  /** The transition table of the lifecycle contract. */
  predicate AllowedTransition(current: ExecutionStatus, target: ExecutionStatus) {
    match current
    case Queued => target.Running? || target.Failed?
    case Running => target.Succeeded? || target.Failed? || target.RetryScheduled? || target.DeadLettered?
    case RetryScheduled => target.Queued? || target.Failed? || target.DeadLettered?
    case Succeeded => false
    case Failed => false
    case DeadLettered => false
  }

  /** The edge `claim` takes when capacity is full; the table does not list it. */
  predicate Deferral(current: ExecutionStatus, target: ExecutionStatus) {
    current.Queued? && target.RetryScheduled?
  }

  datatype ErrorCode =
    | ProviderTimeout
    | ProviderRateLimited
    | ProviderUnavailable
    | ProviderServerError
    | ProviderAuthFailed
    | ProviderBadRequest
    | ExecutionError
    | LeaseExpired
    | QuotaExceeded
    | InvalidStoredPolicy
    | UnknownCode(text: string)

  predicate IsRetryable(code: ErrorCode) {
    code.ProviderTimeout? || code.ProviderRateLimited? || code.ProviderUnavailable? ||
    code.ProviderServerError? || code.ExecutionError? || code.LeaseExpired?
  }

  function Min(a: int, b: int): int { if a <= b then a else b }

  function MinReal(a: real, b: real): real { if a <= b then a else b }

  function MaxReal(a: real, b: real): real { if a >= b then a else b }
}
