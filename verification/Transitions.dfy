/**
 What each transaction does to the rows of one run. These functions are the specification
 of the services' methods; they follow the code branch by branch and know nothing of the
 invariants that make some branches unreachable.
 */
module Transitions {
  import opened Domain
  import opened Retry
  import opened Tables

  // ---------------------------------------------------------------------------------------
  // Attempts
  // ---------------------------------------------------------------------------------------

  /** `max(attempt_number)`, zero when there is none. */
  function MaxNumber(attempts: seq<Attempt>): int {
    if attempts == [] then 0
    else
      var rest := MaxNumber(attempts[..|attempts| - 1]);
      var n := attempts[|attempts| - 1].number;
      if n > rest then n else rest
  }

  /** The open attempt with the highest number. */
  function LatestOpen(attempts: seq<Attempt>): (slot: Option<nat>)
    ensures slot.Some? ==> slot.value < |attempts| && attempts[slot.value].finishedAt.None?
  {
    if attempts == [] then None
    else
      var n := |attempts| - 1;
      var rest := LatestOpen(attempts[..n]);
      if attempts[n].finishedAt.Some? then rest
      else if rest.Some? && attempts[rest.value].number > attempts[n].number then rest
      else Some(n)
  }

  /** The provider an attempt is given: later attempts fall back along the order. */
  function ProviderFor(p: RetryPolicy, number: int): string
    requires Valid(p) && number >= 1
  {
    p.providerOrder[Min(number - 1, |p.providerOrder| - 1)]
  }

  // ---------------------------------------------------------------------------------------
  // Claim
  // ---------------------------------------------------------------------------------------

  datatype Decision = Claimed(slot: nat) | Missing | AlreadyTerminal | ActiveLease | NotReady

  /**
   What a transaction has read before it decides: its start, the instant it goes by, and the two
   counts of its identity.
   */
  datatype Observed = Observed(txStart: Time, now: Time, principal: nat, tenant: nat)

  predicate CapacityFull(c: Config, seen: Observed) {
    seen.principal >= c.principalRunning || seen.tenant >= c.tenantRunning
  }

  function Deferred(e: Entry, now: Time): Entry {
    e.(run := e.run.(status := RetryScheduled, nextAttemptAt := Some(now + 1.0)))
  }

  function PolicyRejected(e: Entry, now: Time): Entry {
    e.(run := e.run.(status := Failed, error := Some(InvalidStoredPolicy), completedAt := Some(now)))
  }

  function NewAttempt(p: RetryPolicy, number: int, worker: Ident, now: Time, txStart: Time): Attempt
    requires Valid(p) && number >= 1
  {
    Attempt(number, ProviderFor(p, number), worker, txStart, now, None, None, None, false, None)
  }

  function Leased(c: Config, e: Entry, p: RetryPolicy, number: int, worker: Ident, now: Time, txStart: Time): Entry
    requires Valid(p) && number >= 1
  {
    e.(run := e.run.(status := Running,
                     leaseOwner := Some(worker),
                     leaseExpires := Some(now + c.leaseSeconds),
                     startedAt := if e.run.startedAt.Some? then e.run.startedAt else Some(now)),
       attempts := e.attempts + [NewAttempt(p, number, worker, now, txStart)],
       spending := e.spending + [NewExecutor()],
       events := e.events + [RunClaimed(number)])
  }

  function ClaimRows(c: Config, e: Entry, worker: Ident, seen: Observed): (Entry, Decision) {
    var now := seen.now;
    if Terminal(e.run.status) then (e, AlreadyTerminal)
    else if e.run.status.Running? then
      (e, if e.run.leaseExpires.None? || e.run.leaseExpires.value > now then ActiveLease else NotReady)
    else if !e.run.status.Queued? then (e, NotReady)
    else if CapacityFull(c, seen) then (Deferred(e, now), NotReady)
    else
      var number := MaxNumber(e.attempts) + 1;
      if Policy(e).Err? || number > Min(Policy(e).value.maxAttempts, c.maxAttempts) || number < 1
      then (PolicyRejected(e, now), AlreadyTerminal)
      else (Leased(c, e, Policy(e).value, number, worker, now, seen.txStart), Claimed(|e.attempts|))
  }

  // ---------------------------------------------------------------------------------------
  // Completion
  // ---------------------------------------------------------------------------------------

  datatype Report = SuccessReport(payload: Payload, provider: string) | FailureReport(code: ErrorCode)

  predicate OwnsActiveLease(run: Run, worker: Ident, now: Time) {
    && run.status.Running?
    && run.leaseOwner == Some(worker)
    && run.leaseExpires.Some? && run.leaseExpires.value > now
  }

  /** The fence of both completions: an owned, unexpired lease and an attempt that is still open. */
  predicate MayComplete(e: Entry, slot: nat, worker: Ident, now: Time) {
    && OwnsActiveLease(e.run, worker, now)
    && slot < |e.attempts|
    && e.attempts[slot].finishedAt.None?
  }

  function SucceededRows(e: Entry, slot: nat, now: Time, payload: Payload, provider: string): Entry
    requires slot < |e.attempts|
  {
    var a := e.attempts[slot].(provider := provider, finishedAt := Some(now), outcome := Some(Success), payload := Some(payload));
    e.(run := e.run.(status := Succeeded, result := Some(payload), completedAt := Some(now), error := None,
                     nextAttemptAt := None, leaseOwner := None, leaseExpires := None),
       attempts := e.attempts[slot := a],
       events := e.events + [RunSucceeded(a.number)])
  }

  function FailedAttempt(a: Attempt, now: Time, code: ErrorCode): Attempt {
    a.(finishedAt := Some(now), outcome := Some(Failure), error := Some(code), retryable := IsRetryable(code))
  }

  /** `_finish_failed_attempt` followed by `_schedule_retry_or_finalize`, evaluation aside. */
  function FailedRows(e: Entry, p: RetryPolicy, slot: nat, now: Time, code: ErrorCode): Entry
    requires slot < |e.attempts| && e.attempts[slot].number >= 1
  {
    var a := FailedAttempt(e.attempts[slot], now, code);
    var e1 := e.(attempts := e.attempts[slot := a],
                 run := e.run.(leaseOwner := None, leaseExpires := None, error := Some(code)));
    if a.retryable && a.number < p.maxAttempts then
      e1.(run := e1.run.(status := RetryScheduled, nextAttemptAt := Some(now + Delay(p, a.number))),
          events := e1.events + [RunRetryScheduled(a.number)])
    else if a.retryable then
      e1.(run := e1.run.(status := DeadLettered, nextAttemptAt := None, completedAt := Some(now)),
          outbox := e1.outbox + [NewOutboxRow(DeadLetterRun)],
          events := e1.events + [RunDeadLettered(a.number)])
    else
      e1.(run := e1.run.(status := Failed, nextAttemptAt := None, completedAt := Some(now)),
          events := e1.events + [RunFailed(a.number)])
  }

  /** `None` is the refusal that the services answer with false. */
  function CompletedRows(e: Entry, slot: nat, worker: Ident, now: Time, report: Report): Option<Entry> {
    if !MayComplete(e, slot, worker, now) then None
    else match report
      case SuccessReport(payload, provider) => Some(SucceededRows(e, slot, now, payload, provider))
      case FailureReport(code) =>
        if Policy(e).Err? || e.attempts[slot].number < 1 then None
        else Some(FailedRows(e, Policy(e).value, slot, now, code))
  }

  // ---------------------------------------------------------------------------------------
  // Repair
  // ---------------------------------------------------------------------------------------

  predicate LeaseIsStale(e: Entry, now: Time) {
    e.run.status.Running? && e.run.leaseExpires.Some? && e.run.leaseExpires.value <= now
  }

  function RecoveredRows(e: Entry, now: Time): Option<Entry> {
    if !LeaseIsStale(e, now) then None
    else
      var slot := LatestOpen(e.attempts);
      if slot.None? || Policy(e).Err? || e.attempts[slot.value].number < 1 then None
      else Some(FailedRows(e, Policy(e).value, slot.value, now, LeaseExpired))
  }

  predicate RetryIsDue(e: Entry, now: Time) {
    e.run.status.RetryScheduled? && e.run.nextAttemptAt.Some? && e.run.nextAttemptAt.value <= now
  }

  function NewOutboxRow(delivery: Delivery): OutboxRow {
    OutboxRow(delivery, None, 0, false)
  }

  /** The transaction that queues the run again commits at `at`. */
  function RequeuedRows(e: Entry, at: Time): Entry {
    e.(run := e.run.(status := Queued, nextAttemptAt := None, queuedAt := at),
       outbox := e.outbox + [NewOutboxRow(QueueRun)],
       events := e.events + [RunRetryQueued])
  }

  // ---------------------------------------------------------------------------------------
  // Delivery
  // ---------------------------------------------------------------------------------------

  /** What can happen to one publication. A failed one may still have reached the broker. */
  datatype Publication = Confirmed | Refused(reached: bool) | CrashedAfterSend

  function Sent(e: Entry, row: nat): Entry
    requires row < |e.outbox|
  {
    if e.outbox[row].delivery.QueueRun? then e.(queued := e.queued + 1) else e
  }

  function PublishedRows(e: Entry, row: nat, now: Time, p: Publication): Entry
    requires row < |e.outbox|
  {
    var o := e.outbox[row];
    match p
    case Confirmed =>
      Sent(e, row).(outbox := e.outbox[row := o.(publishedAt := Some(now), publishAttempts := o.publishAttempts + 1, failed := false)],
                    events := e.events + [OutboxPublished(row)])
    case Refused(reached) =>
      (if reached then Sent(e, row) else e).(
        outbox := e.outbox[row := o.(publishAttempts := o.publishAttempts + 1, failed := true)],
        events := e.events + [OutboxPublishFailed(row)])
    case CrashedAfterSend => Sent(e, row)
  }

  // ---------------------------------------------------------------------------------------
  // Creation
  // ---------------------------------------------------------------------------------------

  function KindName(kind: WorkKind): string {
    match kind
    case ExecutionWork => "execution"
    case EvaluationWork => "evaluation"
    case RegressionWork => "regression"
  }

  /** The policy half of a submission's hash: job kinds other than execution are mixed in. */
  function HashedPolicy(snapshot: Snapshot, kind: WorkKind): Snapshot {
    if kind.ExecutionWork? then snapshot else snapshot[WorkKindName := TextValue(KindName(kind))]
  }

  /** The single-attempt policy of evaluation and regression jobs. */
  function JobPolicy(c: Config): Snapshot {
    map[MaxAttempts := IntValue(1),
        AttemptTimeout := FloatValue(Finite(c.jobTimeout)),
        InitialBackoff := IntValue(1),
        MaxBackoff := IntValue(1),
        ProviderOrder := TextList(["deterministic"])]
  }

  function QueuedRun(at: Time): Run {
    Run(Queued, None, None, None, None, None, None, None, at)
  }

  function NewEntry(accepted: Accepted, first: Event, evaluation: Option<Evaluation>, at: Time): Entry {
    Entry(accepted, QueuedRun(at), NotRun, [], [], [first], [NewOutboxRow(QueueRun)], 0, [], evaluation)
  }

  // ---------------------------------------------------------------------------------------
  // Provider calls
  // ---------------------------------------------------------------------------------------

  /** The dataset is one that the server runs at all. */
  predicate FitsServer(c: Config, a: Accepted) {
    a.input.Dataset? && a.input.cases <= c.regressionMaxCases && 2 * a.input.cases <= c.regressionBudget
  }

  /** How many targets an attempt's executor goes through: a regression has a baseline and a candidate. */
  function Targets(c: Config, a: Accepted): nat {
    match a.kind
    case ExecutionWork => 1
    case EvaluationWork => 0
    case RegressionWork => if FitsServer(c, a) then 2 else 0
  }

  /** How many cases each target has; an execution is one call. */
  function Cases(c: Config, a: Accepted): nat {
    match a.kind
    case ExecutionWork => 1
    case EvaluationWork => 0
    case RegressionWork => if FitsServer(c, a) then a.input.cases else 0
  }

  /** How many calls the loop over the targets, each with its loop over the cases, comes to. */
  function Loops(c: Config, a: Accepted): nat {
    if Targets(c, a) == 0 then 0 else if Targets(c, a) == 1 then Cases(c, a) else 2 * Cases(c, a)
  }

  /** The budget that the executor compares its own counter with. */
  function Budget(c: Config, a: Accepted): nat {
    if a.kind.RegressionWork? then c.regressionBudget else 1
  }

  function NewExecutor(): Spending {
    Spending(0, 0, Position(0, 0), Idle)
  }

  predicate HasCase(c: Config, a: Accepted, at: Position) {
    at.target < Targets(c, a) && at.done < Cases(c, a)
  }

  /** The loop over the cases of a target, inside the sequence of the targets. */
  function NextCase(c: Config, a: Accepted, at: Position): Position {
    if at.done + 1 < Cases(c, a) then Position(at.target, at.done + 1) else Position(at.target + 1, 0)
  }

  /** The fence of `ChargedExecutor`: the attempt is open and the worker still holds the lease. */
  predicate MayCharge(e: Entry, slot: nat, worker: Ident, now: Time) {
    MayComplete(e, slot, worker, now)
  }

  /**
   What an executor does next. `Pay` checks the fence at `now` and reads the quota at `at`; a skipped
   case has failed without a call, and a halted executor was refused, cut off or lost.
   */
  datatype Action = Start | Pay(worker: Ident, now: Time, at: Time) | Invoke | Skip | Halt

  /** An executor's own moves; paying also needs the database. */
  function Moved(c: Config, a: Accepted, x: Spending, action: Action): Spending {
    match action
    case Start => if x.activity.Idle? && HasCase(c, a, x.position) then x.(activity := Calling, position := NextCase(c, a, x.position)) else x
    case Pay(_, _, _) => x
    case Invoke => if x.activity.Paid? then x.(activity := Idle, calls := x.calls + 1) else x
    case Skip => if x.activity.Calling? then x.(activity := Idle) else x
    case Halt => x.(activity := Halted)
  }

  /** The executor's own guard on its counter; every accepted charge counts. */
  predicate WantsToPay(c: Config, a: Accepted, x: Spending) {
    x.activity.Calling? && x.charges < Budget(c, a)
  }

  function WithExecutor(e: Entry, slot: nat, x: Spending): Entry
    requires slot < |e.spending|
  {
    e.(spending := e.spending[slot := x])
  }
}
