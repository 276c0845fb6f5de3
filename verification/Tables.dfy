/**
 The durable tables, grouped by the run that their rows belong to. The position of an entry
 is the run's id; the position of an attempt within it stands for the attempt's id. Rows are
 only ever added, so positions are never reused.
 */
module Tables {
  import opened Domain
  import opened Retry
  import Quota

  datatype WorkKind = ExecutionWork | EvaluationWork | RegressionWork

  /**
   The JSON documents that serve as run input. A replay's request document wraps the source's
   input; nothing stops a client from submitting a document of that shape itself.
   */
  datatype Input =
    | Document(text: nat)
    | ReplayOf(run: nat, inner: Input)
    | RulesFor(run: nat, rules: nat)
    | Dataset(text: nat, cases: nat)

  /** What `canonical_request_hash` digests; the digest is taken to be injective. */
  datatype Request = Request(input: Input, policy: Snapshot)

  datatype Payload = Payload(text: nat, passed: bool)

  /** The columns of a run that are written once, when the run is accepted. */
  datatype Accepted = Accepted(
    client: Ident,
    principal: Ident,
    kind: WorkKind,
    key: nat,
    hash: Request,
    input: Input,
    snapshot: Snapshot,
    replayOf: Option<nat>)

  /** The columns of a run that transactions update, and the instant at which it was last queued. */
  datatype Run = Run(
    status: ExecutionStatus,
    result: Option<Payload>,
    error: Option<ErrorCode>,
    startedAt: Option<Time>,
    completedAt: Option<Time>,
    leaseOwner: Option<Ident>,
    leaseExpires: Option<Time>,
    nextAttemptAt: Option<Time>,
    queuedAt: Time)

  datatype Outcome = Success | Failure

  /**
   One claim of a run. `claimedAt` is the instant from which the claim computed its lease;
   `startedAt` is the column, which the database fills with the transaction's start.
   `payload` records what a successful attempt returned.
   */
  datatype Attempt = Attempt(
    number: int,
    provider: string,
    worker: Ident,
    startedAt: Time,
    claimedAt: Time,
    finishedAt: Option<Time>,
    outcome: Option<Outcome>,
    error: Option<ErrorCode>,
    retryable: bool,
    payload: Option<Payload>)

  /** The case an executor will turn to next: of which target, and how many cases it has behind it there. */
  datatype Position = Position(target: nat, done: nat)

  /** Between two calls, inside one, inside one that is paid for, or ended. */
  datatype Activity = Idle | Calling | Paid | Halted

  /** The executor that a claim starts for its attempt: what it has paid for and called, and where it is. */
  datatype Spending = Spending(charges: nat, calls: nat, position: Position, activity: Activity)

  datatype Event =
    | RunQueued
    | RunReplayQueued(source: nat)
    | ReplayCreated(replay: nat)
    | RunClaimed(attempt: int)
    | RunSucceeded(attempt: int)
    | RunRetryScheduled(attempt: int)
    | RunRetryQueued
    | RunFailed(attempt: int)
    | RunDeadLettered(attempt: int)
    | OutboxPublished(row: nat)
    | OutboxPublishFailed(row: nat)
    | EvaluationChanged(job: nat, status: EvaluationStatus)

  datatype Delivery = QueueRun | DeadLetterRun

  datatype OutboxRow = OutboxRow(
    delivery: Delivery,
    publishedAt: Option<Time>,
    publishAttempts: nat,
    failed: bool)

  /** How far a worker is with one delivered message. */
  datatype Phase = Undecided | Decided | Closed

  /** The lifecycle record of an evaluation; the schema allows one per job run. */
  datatype Evaluation = Evaluation(
    source: nat,
    id: Ident,
    createdAt: Time,
    status: EvaluationStatus,
    result: Option<Payload>,
    completedAt: Option<Time>)

  datatype Entry = Entry(
    accepted: Accepted,
    run: Run,
    evaluationStatus: EvaluationStatus,
    attempts: seq<Attempt>,
    spending: seq<Spending>,
    events: seq<Event>,
    outbox: seq<OutboxRow>,
    queued: nat,
    deliveries: seq<Phase>,
    evaluation: Option<Evaluation>)

  datatype State = State(clock: Time, entries: seq<Entry>, ledger: Quota.Ledger)

  datatype Config = Config(
    leaseSeconds: real,
    maxAttempts: int,
    principalRunning: nat,
    tenantRunning: nat,
    principalActive: nat,
    tenantActive: nat,
    limits: Quota.Limits,
    jobTimeout: real,
    regressionMaxCases: nat,
    regressionBudget: nat)

  /** The ranges that the settings enforce, as far as the model depends on them. */
  ghost predicate ValidConfig(c: Config) {
    && c.leaseSeconds > 0.0
    && c.maxAttempts >= 1
    && c.principalRunning >= 1 && c.tenantRunning >= 1
    && c.limits.windowSeconds > 0
  }

  const INITIAL := State(0.0, [], Quota.EMPTY)

  /** The stored policy as `RetryPolicy.from_snapshot` reads it. */
  function Policy(e: Entry): Result<RetryPolicy> {
    FromSnapshot(e.accepted.snapshot)
  }

  // ---------------------------------------------------------------------------------------
  // Counts that quotas are about
  // ---------------------------------------------------------------------------------------

  predicate In(e: Entry, scope: Quota.Scope) {
    match scope
    case PrincipalScope(id) => e.accepted.principal == id
    case TenantScope(id) => e.accepted.client == id
  }

  function RunningIn(entries: seq<Entry>, scope: Quota.Scope): nat {
    if entries == [] then 0 else
    var last := entries[|entries| - 1];
    RunningIn(entries[..|entries| - 1], scope) + if In(last, scope) && last.run.status.Running? then 1 else 0
  }

  function ActiveIn(entries: seq<Entry>, scope: Quota.Scope): nat {
    if entries == [] then 0 else
    var last := entries[|entries| - 1];
    ActiveIn(entries[..|entries| - 1], scope) + if In(last, scope) && Active(last.run.status) then 1 else 0
  }

  function RunningLimit(c: Config, scope: Quota.Scope): nat {
    if scope.PrincipalScope? then c.principalRunning else c.tenantRunning
  }

  function ActiveLimit(c: Config, scope: Quota.Scope): nat {
    if scope.PrincipalScope? then c.principalActive else c.tenantActive
  }

  lemma {:induction false} RunningAfterPut(entries: seq<Entry>, r: nat, e: Entry, scope: Quota.Scope)
    requires r < |entries|
    ensures RunningIn(entries[r := e], scope)
         == RunningIn(entries, scope)
            - (if In(entries[r], scope) && entries[r].run.status.Running? then 1 else 0)
            + (if In(e, scope) && e.run.status.Running? then 1 else 0)
  {
    var n := |entries| - 1;
    if r < n {
      RunningAfterPut(entries[..n], r, e, scope);
      assert entries[r := e][..n] == entries[..n][r := e];
    } else {
      assert entries[r := e][..n] == entries[..n];
    }
  }

  lemma {:induction false} ActiveAfterPut(entries: seq<Entry>, r: nat, e: Entry, scope: Quota.Scope)
    requires r < |entries|
    ensures ActiveIn(entries[r := e], scope)
         == ActiveIn(entries, scope)
            - (if In(entries[r], scope) && Active(entries[r].run.status) then 1 else 0)
            + (if In(e, scope) && Active(e.run.status) then 1 else 0)
  {
    var n := |entries| - 1;
    if r < n {
      ActiveAfterPut(entries[..n], r, e, scope);
      assert entries[r := e][..n] == entries[..n][r := e];
    } else {
      assert entries[r := e][..n] == entries[..n];
    }
  }

  lemma CountsAfterAppend(entries: seq<Entry>, e: Entry, scope: Quota.Scope)
    ensures RunningIn(entries + [e], scope)
         == RunningIn(entries, scope) + if In(e, scope) && e.run.status.Running? then 1 else 0
    ensures ActiveIn(entries + [e], scope)
         == ActiveIn(entries, scope) + if In(e, scope) && Active(e.run.status) then 1 else 0
  {
  }
}
