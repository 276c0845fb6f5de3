# A verified model of the durable execution protocol

The runtime accepts runs over an API, writes each run together with an outbox row, publishes the
row to a broker, lets workers claim and execute it under a lease, and repairs what crashes leave
behind. This project models that protocol in Dafny and proves what it keeps over every execution:
any interleaving of submissions, publications, duplicate deliveries, claims, late completions,
lease recoveries, retries, provider charges, crashes and clock ticks.

## How the model is built

- `Tables`, `Transitions`, `Protocol`: the tables grouped by run, what each transaction does to the
  rows of one run, and a machine whose steps are the transactions, the broker's moves, crashes and
  time. `Guarantees.After(c, steps)` is the database after any list of steps.
- `EntryInvariant`, `ProtocolInvariant`, `Evolution`: the inductive invariant and the relation
  between earlier and later states, kept by every step.
- `Guarantees`, `Idempotency`, `Mirror`, `Liveness`, `Capacity`: what the runtime promises, for every `steps`.
- `Frames`, `Provenance`: what each transaction writes into a run's rows, told column by column, and the
  converse: every run, attempt, result and scheduled retry goes back to one step that said exactly that.
- `Broker`: a run's messages are those sent for it and not acknowledged.
- `Interleaving`: a finer machine in which claims, creations and charges are concurrent sessions that
  lock, read in several rounds and commit in separate steps. A commit is computed from what the session
  has read: the locked run and its attempts, the run with its key, both counts, both quota counters and
  the clock. Its database is always one that the atomic machine can reach.
- `LockOrder`: sessions that take locks one by one, and why identity locks never close a circle.
- `Store`, `Execution`, `Runs`, `Dispatcher`, `Providers`, `Worker`: the services as classes whose
  methods update the store row by row, with their loops. The store's ghost `history` lists the
  machine steps taken so far, and `Valid()` says that the state is `After(config, history)`; so each
  method is proved to be a list of machine steps, and every guarantee holds between any two calls.
- `Quota`, `Retry`, `Routing`, `PolicyBuilder`, `BoundedValue`, `Paging`: quotas, backoff and snapshots,
  routing, the policy merge, the explicit-stack traversal and the cursor walk.
- `Witnesses`: concrete executions at the edges where a promise needs a condition.

Times are reals and ids are naturals. The request hash is a record of what it digests, so it is
injective. `now` in completions and repairs is any earlier reading of the clock. A claim goes by a
reading taken after it locked the run, so at or after the instant at which the run was last queued
(`Run.queuedAt`, which is not a column); a charge reads the quota at an instant no earlier than any
charge that shares one of its identity locks. Counts that a claim or an admission has read may be too
high when it commits, because completions take no identity lock, and never too low.

Each claim starts one executor for its attempt. `Tables.Spending` records where it is: the case it turns
to next in the loops over targets and cases, what it has paid for and called, and whether it is inside a
call. Its own guard is the source's comparison of its counter with the budget; that an attempt never pays
more than once per case and target is derived from the loops.

Where code and documents differ the model follows the code: `claim` defers a QUEUED run to
RETRY_SCHEDULED although the transition table has no such edge, and a due retry goes back to QUEUED
although `docs/architecture/v0-contract.md` lists RUNNING as its successor.

## Results that need a condition

- The evaluation mirror is right throughout an execution if and only if no evaluation is accepted
  with a stamp older than that of an already decided one (`Mirror.MirrorHolds`). `created_at` is the
  start of the transaction, so that can happen (`Witnesses.OutOfOrderStampBreaksMirror`).
- Exhausted retries end DEAD_LETTERED as long as the stored policy stays within the worker's cap;
  above it `claim` ends the run FAILED, exactly at the cap (`Guarantees.AttemptBudget`,
  `Witnesses.WorkerCapEndsRetriesEarly`).
- A submission is answered with a replay that holds its key if and only if it submits the wrapped
  document under which the replay was hashed (`Idempotency.SubmissionMatchesReplayExactly`,
  `Witnesses.SubmissionCanMeetAReplay`).
- A submission on a taken key is answered with its run if and only if it agrees with the accepted one in
  input, policy and kind (`Idempotency.RepeatedSubmission`). The exception is a policy with a field that
  poses as the work kind (`Witnesses.KindCanBeMimicked`); the policies that the server builds have none
  (`PolicyBuilder.StoredPolicyExactly`).
- Provider-call quotas are kept by all requests that follow a clock if and only if the clock never
  returns to a window after it has shown another one (`Quota.QuotaHoldsExactly`). Running backwards does
  no harm by itself, and a monotone clock never returns (`Quota.MonotoneNeverReturns`).
- The clamped initial backoff is at least the server's base if and only if the base is within the
  server's maximum (`PolicyBuilder.StoredPolicyIsWithinLimits`, `PolicyBuilder.BaseCanBeUndercut`).
- A replay's integrity-error path answers what its locked lookup answers if and only if its source is not
  a job of another kind; such a replay is refused before it inserts anything
  (`Idempotency.ReplayRaceAnswersAlike`).

## Model

| member | source | states |
|---|---|---|
| `Guarantees.LeaseMatchesAttempt` | src/agent_runtime/infrastructure/database/execution_service.py:98-108 | In every reachable state a run is RUNNING iff it has an unfinished attempt; that attempt is the only one, has the highest number and belongs to the lease owner; otherwise both lease fields are null; `completed_at` is set iff terminal and `next_attempt_at` iff RETRY_SCHEDULED |
| `Guarantees.AttemptBudget` | src/agent_runtime/infrastructure/database/execution_service.py:84-94 | Attempt numbers are 1..n, n within the policy's and the worker's bound; a queued run reaches the "budget exhausted" branch iff it stands at the worker's cap and its policy allows more |
| `Guarantees.ClaimOpensOneAttemptOrNone` | src/agent_runtime/infrastructure/database/execution_service.py:55-107 | In every reachable state, by status, counts and attempts left: a claim opens attempt n+1 for its worker, on the provider that number selects, with a lease from the instant it sampled; defers by one second without an attempt; ends the run; or leaves everything alone with the decision that fits |
| `Guarantees.ExhaustedRetriesAreDeadLettered` | src/agent_runtime/infrastructure/database/execution_service.py:388-405 | A run is DEAD_LETTERED iff it used every attempt of its policy and the last failed retryably |
| `Guarantees.AttemptsFinishOnce` | src/agent_runtime/infrastructure/database/execution_service.py:183-199 | A finished attempt never changes in any continuation, and every completion naming it is refused and changes nothing, whoever holds the lease by then |
| `Guarantees.CompletionIsFencedExactly` | src/agent_runtime/infrastructure/database/execution_service.py:328-336 | A report is accepted iff its worker holds the run's one open attempt and the lease counted from its claim has not run out |
| `Guarantees.ResultIsFinal` | src/agent_runtime/infrastructure/database/execution_service.py:158-168 | At most one attempt has succeeded, it is the last one, its payload is the run's result, and terminal runs never change again |
| `Provenance.CompletionStoresReport` | src/agent_runtime/infrastructure/database/execution_service.py:141-211 | An accepted report closes its attempt with the reported payload and provider, which is the run's result, or with the reported code; a transient code schedules a retry at exactly the finish plus the policy's delay or dead-letters the run, any other ends it |
| `Provenance.ResultWasReported` | src/agent_runtime/infrastructure/database/execution_service.py:163-168 | The result of a reachable run is the payload of one success report in its history, made by the worker that claimed its last attempt |
| `Provenance.AttemptWasReported` | src/agent_runtime/infrastructure/database/execution_service.py:343-349 | Every closed attempt goes back to one step, the report of the worker that claimed it with the same payload or code, or the recovery of its lease |
| `Provenance.OtherReportsAreRefused` | src/agent_runtime/infrastructure/database/execution_service.py:151-155 | Every other report that names the attempt, earlier or later, changed nothing |
| `Provenance.AttemptWasClaimed` | src/agent_runtime/infrastructure/database/execution_service.py:98-107 | Every attempt goes back to one claim of its worker, which dates it |
| `Provenance.RetryWasScheduled` | src/agent_runtime/infrastructure/database/execution_service.py:366-370 | A waiting run was scheduled by one step: a transient failure, and it is due exactly the delay after the attempt's finish, or a deferral, and it is due a second later |
| `Provenance.RecoveryIsExact` | src/agent_runtime/infrastructure/database/execution_service.py:213-248 | A recovery ends an attempt as expired iff its lease, counted from its claim, has run out by then |
| `Provenance.RunWasAskedFor` | src/agent_runtime/infrastructure/database/run_service.py:120-150 | Every run goes back to one request whose client, principal, key, kind, input and policy it has |
| `Provenance.StepTells` | src/agent_runtime/infrastructure/database/execution_service.py:44-286 | Every step leaves a run's row and attempts alone, or locks the row and writes exactly what its parameters say |
| `Guarantees.StatusFollowsTable` | src/agent_runtime/domain/states.py:31-47 | Every step moves every run's status along the transition table or the deferral edge, or not at all |
| `Guarantees.StatusChangesBounded` | src/agent_runtime/infrastructure/database/execution_service.py:75-107 | With M allowed attempts and d deferrals a run changes status at most 3M + 1 + 2d times |
| `Evolution.ChangesAreProgress` | src/agent_runtime/infrastructure/database/execution_service.py:351-417 | The number of status changes over any execution is exactly the gain of a potential plus two per deferral |
| `Evolution.ExecuteEvolves` | src/agent_runtime/infrastructure/database/models.py:33-222 | Over any continuation events only grow, closed attempts, published rows and decided evaluations stay, and accepted requests never change |
| `Guarantees.LedgerIsConserved` | src/agent_runtime/infrastructure/database/execution_service.py:269-285 | One RUN_CLAIMED event per attempt number, RUN_QUEUED rows are one more than RUN_RETRY_QUEUED events, one RUN_DEAD_LETTERED row iff dead-lettered, `publish_attempts` equals published plus failed events with at most one published |
| `Guarantees.RetriesAreSpaced` | src/agent_runtime/infrastructure/database/execution_service.py:366-370 | Attempt k+1 is never claimed before attempt k's finish plus `delay_after_attempt(k)`, and that delay is the uncapped one |
| `Guarantees.FallbackFollowsOrder` | src/agent_runtime/infrastructure/database/execution_service.py:95-97 | Until it reports a success, attempt k runs on the k-th provider of the stored order, or the last one |
| `Guarantees.CapacityHolds` | src/agent_runtime/infrastructure/database/execution_service.py:70-83 | No principal or tenant ever exceeds its running or active limit |
| `Capacity.RunsWithinCapacity` | src/agent_runtime/infrastructure/database/quotas.py:90-104 | The sets of a principal's, and of a tenant's, running and unfinished runs are never larger than allowed |
| `Capacity.AdmissionIsExact` | src/agent_runtime/infrastructure/database/quotas.py:90-104 | A request is admitted iff its principal and tenant have fewer unfinished runs than allowed and the present window has fewer charges of either than allowed |
| `Guarantees.CallsArePaid` | src/agent_runtime/execution/resource_executor.py:91-118 | Every attempt has at most one charge without its call, its charges are exactly those booked for it in the quota ledger, and the loops alone keep them within the budget, so the guard on the counter never refuses |
| `Guarantees.CallsByKind` | src/agent_runtime/execution/resource_executor.py:78-152 | Over a run's lifetime, derived from the loops: at most one call per attempt for executions, none for evaluation jobs, at most twice the cases and within the budget for regression jobs |
| `Guarantees.ChargesAreFenced` | src/agent_runtime/execution/resource_executor.py:91-117 | A charge is accepted iff its worker holds the fence when it is checked, its executor is in an unpaid call, and the window's booked charges leave room for both scopes |
| `Guarantees.SystemQuotaHolds` | src/agent_runtime/infrastructure/database/quotas.py:107-128 | In every reachable state each aligned window holds at most the limit of charges per scope, and any interval of one window's length at most twice that |
| `Guarantees.EvaluationLifecycle` | src/agent_runtime/infrastructure/database/execution_service.py:421-443 | Every evaluation job has its record: pending iff the job is not terminal, passed or failed iff it succeeded with a result that says so, an error iff it failed, and final afterwards; its source exists, of the same client, with a result |
| `ProtocolInvariant.ExecuteKeeps` | src/agent_runtime/infrastructure/database/execution_service.py:44-286 | The invariant of all tables survives every list of steps |
| `Mirror.MirrorExact` | src/agent_runtime/infrastructure/database/execution_service.py:444-452 | Of all steps only accepting an evaluation can break the mirror, and exactly when it is stamped before one already decided |
| `Mirror.MirrorHolds` | src/agent_runtime/infrastructure/database/run_service.py:273-301 | `evaluation_status` equals the latest evaluation's status throughout an execution iff every evaluation is accepted in order |
| `Mirror.LatestByStamp` | src/agent_runtime/infrastructure/database/execution_service.py:445-450 | The latest evaluation is the one with the greatest creation time, and among equals the greatest id |
| `Witnesses.OutOfOrderStampBreaksMirror` | src/agent_runtime/infrastructure/database/run_service.py:280-302 | A concrete execution in which an older stamp leaves the source PENDING although its latest evaluation PASSED |
| `Witnesses.WorkerCapEndsRetriesEarly` | src/agent_runtime/infrastructure/database/execution_service.py:87-94 | A concrete execution in which a policy above the worker's cap ends FAILED after a retryable failure |
| `Idempotency.OneRunPerKey` | src/agent_runtime/infrastructure/database/run_service.py:437-448 | In every reachable state there is at most one run per client and key |
| `Idempotency.RepeatedSubmission` | src/agent_runtime/infrastructure/database/run_service.py:98-119 | After any continuation, a submission on a taken key is answered with its run iff it agrees in input, policy and kind (up to a policy field that poses as the kind), and with a conflict otherwise; neither changes anything |
| `Idempotency.SameRequestIsSameHash` | src/agent_runtime/infrastructure/database/run_service.py:98-103 | Two submissions have the same digest iff they agree in input, in every policy field but the kind's, and in the kind that they show |
| `Idempotency.RepeatedReplay` | src/agent_runtime/infrastructure/database/run_service.py:370-380 | The same for replays, which must also name the same source |
| `Idempotency.RaceAnswersAlike` | src/agent_runtime/infrastructure/database/run_service.py:172-182 | The answer of a submission after an integrity error is the one the locked lookup gives, after any continuation |
| `Idempotency.ReplayRaceAnswersAlike` | src/agent_runtime/infrastructure/database/run_service.py:422-435 | The same for a replay, exactly unless its source is a job of another kind, whose replay is refused before it inserts; the error path would call that a conflict |
| `Idempotency.ReplaysCopyTheirSource` | src/agent_runtime/infrastructure/database/run_service.py:384-395 | Every replay has its source's input, policy and client, and its source is an execution run |
| `Idempotency.SubmissionMatchesReplayExactly` | src/agent_runtime/infrastructure/database/run_service.py:470-476 | A submission is answered with a replay iff it submits the very document under which the replay was hashed, with a policy that agrees in every field and shows the same kind |
| `Idempotency.ReplayMatchesOnlyReplays` | src/agent_runtime/infrastructure/database/run_service.py:370-380 | In every reachable state the run a replay request is answered with is a replay of the same source, with its input, policy and client |
| `Idempotency.JobNamesItsSource` | src/agent_runtime/infrastructure/database/run_service.py:259-279 | The run named in a job's input is the run its lifecycle record is about |
| `Witnesses.SubmissionCanMeetAReplay` | src/agent_runtime/infrastructure/database/run_service.py:470-476 | A concrete execution in which a submission is answered with a replay whose input differs |
| `Witnesses.KindCanBeMimicked` | src/agent_runtime/infrastructure/database/run_service.py:98-103 | A concrete execution in which a regression is answered with an execution run whose policy names that kind |
| `Liveness.NothingIsStranded` | src/agent_runtime/infrastructure/messaging/worker.py:116-132 | A queued run has an unpublished row, a queued message or an undecided delivery; a running one a lease expiry and an open attempt; a scheduled one its time |
| `Liveness.EveryRunCanFinish` | src/agent_runtime/infrastructure/database/execution_service.py:213-286 | From every reachable state every run has a continuation in which it becomes terminal although no worker reports anything any more: leases expire, recovery and scheduling take it back, and each redelivery uses up an attempt |
| `Broker.MessagesAreConserved` | src/agent_runtime/infrastructure/messaging/dispatcher.py:53-123 | A run's messages, queued or in hand, are those that reached the broker for it and were not acknowledged; dead letters never reach the run queue |
| `Interleaving.InterleavingRefinesAtomic` | src/agent_runtime/infrastructure/database/quotas.py:42-46 | The database after any interleaving of locking, reading and committing claims, creations and charges, whose commits follow from their earlier reads, is one that atomic transactions produce |
| `Interleaving.CapacityUnderInterleaving` | src/agent_runtime/infrastructure/database/quotas.py:90-104 | Under full interleaving no scope exceeds its running or active limit |
| `Interleaving.QuotaUnderInterleaving` | src/agent_runtime/execution/resource_executor.py:93-117 | Although quota rows are read without row locks, no charge is lost: under full interleaving every window and interval stays within its bound |
| `Interleaving.CommitIsCovered` | src/agent_runtime/infrastructure/database/execution_service.py:51-108 | A commit computed from what its session read is the atomic transaction on the present database |
| `Interleaving.CommitsOnFreshReads` | src/agent_runtime/infrastructure/database/execution_service.py:48-86 | While a session reads and when it commits, the locked run, its attempts, the looked-up key and both quota counters are what it read, so neither a submission nor a replay meets the unique key constraint |
| `Interleaving.RunningFrame` | src/agent_runtime/infrastructure/database/execution_service.py:104-108 | A scope's running count rises only by a claim of one of its own runs |
| `Interleaving.ActiveFrame` | src/agent_runtime/infrastructure/database/run_service.py:120-135 | A scope's active count rises only by a creation in that scope |
| `LockOrder.LockIdentity` | src/agent_runtime/infrastructure/database/quotas.py:42-46 | Sorting the scope texts always takes the principal's lock before the tenant's |
| `LockOrder.ScriptsAreDisciplined` | src/agent_runtime/execution/resource_executor.py:93-117 | Every transaction takes a new identity lock before any row lock and after lower-ranked identity locks only |
| `LockOrder.IdentityWaitsNeverDeadlock` | src/agent_runtime/infrastructure/database/quotas.py:42-46 | In every reachable state no session that waits in a circle waits for an identity lock |
| `LockOrder.RetakingNeverWaits` | src/agent_runtime/infrastructure/database/quotas.py:107-110 | The identity locks a charge takes again under its row lock are already its own |
| `Quota.QuotaHolds` | src/agent_runtime/infrastructure/database/quotas.py:107-128 | After any requests on a clock that never returns to a window: at most the limit per aligned window, at most twice that in any interval of its length |
| `Quota.QuotaHoldsExactly` | src/agent_runtime/infrastructure/database/quotas.py:121-125 | For limits of at least one: all requests that follow a clock keep every window within its limits iff the clock never returns to a window it has left |
| `Quota.MonotoneNeverReturns` | src/agent_runtime/infrastructure/database/quotas.py:49-54 | A monotone clock never returns to a window |
| `Quota.WindowIsInterval` | src/agent_runtime/infrastructure/database/quotas.py:49-54 | The k-th window's charges are those dated in its seconds |
| `Quota.BudgetCheckIsExact` | src/agent_runtime/infrastructure/database/quotas.py:57-87 | At the same state and second, in a window its scopes have not left, the advisory check refuses iff a charge would, namely when a scope's charges of the window have reached its limit; a refusal changes nothing |
| `Quota.ProviderQuotas.ChargeProviderCall` | src/agent_runtime/infrastructure/database/quotas.py:107-128 | The two loops over both scopes count one call on each, or leave the table as the transaction found it |
| `Store.SelectBatch` | src/agent_runtime/infrastructure/database/execution_service.py:217-229 | A batch is the eligible rows with the smallest keys, in order and without repetition, up to the limit |
| `Execution.NextAttemptNumber` | src/agent_runtime/infrastructure/database/execution_service.py:309-314 | The next number is one above the highest and above every existing one |
| `Execution.LatestOpenAttempt` | src/agent_runtime/infrastructure/database/execution_service.py:316-326 | The open attempt with the highest number, or none if all are finished |
| `Execution.FinalizeEvaluationJob` | src/agent_runtime/infrastructure/database/execution_service.py:421-459 | The row updates amount to the specified finalisation, the record says how the job ended, and a missing record is the only error |
| `Execution.FailAttempt` | src/agent_runtime/infrastructure/database/execution_service.py:343-419 | Closing a failed attempt and then retrying, dead-lettering or failing the run is the specified transition |
| `Execution.ClaimRun` | src/agent_runtime/infrastructure/database/execution_service.py:44-139 | Every branch of a claim on the rows as they are, with both counts, is the specified transition |
| `Execution.CompleteRun` | src/agent_runtime/infrastructure/database/execution_service.py:141-211 | Both completions behind their shared fence are the specified transition and store what was reported |
| `Execution.ExecutionService.Claim` | src/agent_runtime/infrastructure/database/execution_service.py:44-139 | In the store a claim never raises and is one Claim step with exact counts |
| `Execution.ExecutionService.Complete` | src/agent_runtime/infrastructure/database/execution_service.py:141-211 | In the store a completion never raises, is one Complete step, and either stores its report column by column and ends RUNNING or changes nothing |
| `Execution.ExecutionService.RecoverExpiredLeases` | src/agent_runtime/infrastructure/database/execution_service.py:213-248 | The batch loop is one Recover step per selected run, and no selected run is RUNNING afterwards |
| `Execution.ExecutionService.ScheduleDueRetries` | src/agent_runtime/infrastructure/database/execution_service.py:250-286 | The batch loop is one Schedule step per selected run, and every selected run is QUEUED afterwards |
| `Execution.LargeBatchRecoversAll` | src/agent_runtime/infrastructure/database/execution_service.py:213-248 | A batch that is not full, with no row locked elsewhere, leaves no expired lease behind |
| `Runs.SubmitRun` | src/agent_runtime/infrastructure/database/run_service.py:97-150 | Lookup, match, admission and insertion are the specified submission; a new run takes a free key with its own row and null columns; on a taken key the answer is its run iff the stored digest is of the request's own input, policy and kind |
| `Runs.ReplayRun` | src/agent_runtime/infrastructure/database/run_service.py:359-421 | The same for a replay, which must also name the same source; the source is missing iff it is absent, of another client or no execution run; both events are written |
| `Runs.EvaluateRun` | src/agent_runtime/infrastructure/database/run_service.py:245-302 | The same for an evaluation job: each answer has its own reason, the record is pending under a fresh id, and its source, which had succeeded, is marked PENDING with an event |
| `Runs.CheckAdmission` | src/agent_runtime/infrastructure/database/quotas.py:90-104 | Both active counts and the advisory budget decide admission |
| `Runs.RunService.Submit` | src/agent_runtime/infrastructure/database/run_service.py:87-182 | One Submit step; it is turned away iff its key is free and there is no room; only a new run, on a free key and with its own outbox row, changes the store |
| `Runs.RunService.Replay` | src/agent_runtime/infrastructure/database/run_service.py:354-435 | One Replay step with the same meaning of its answers |
| `Runs.RunService.Evaluate` | src/agent_runtime/infrastructure/database/run_service.py:235-302 | One Evaluate step; an accepted one leaves its source PENDING |
| `Dispatcher.OutboxDispatcher.DispatchOne` | src/agent_runtime/infrastructure/messaging/dispatcher.py:53-123 | A row is found iff one waits; that row has one more attempt and is published or marked as failed as the broker replied; the update is one Publish step |
| `Dispatcher.OutboxDispatcher.DispatchOnce` | src/agent_runtime/infrastructure/messaging/dispatcher.py:40-51 | With any steps of others before each row: it publishes in order of the replies, stops at the first failure, and otherwise stops short of a batch only when nothing waits |
| `Providers.ForeignKeeps` | src/agent_runtime/execution/resource_executor.py:81-118 | Whatever the rest of the system does, an attempt's own executor, its charges and its calls stay |
| `Providers.ChargedExecutor.Execute` | src/agent_runtime/execution/resource_executor.py:84-133 | Every call follows its own accepted charge and ends as the provider ends it, the counter is the attempt's charges, an exhausted counter refuses, a lost fence is the only other refusal, and a cut off call leaves at most its one payment |
| `Providers.RunCase` | src/agent_runtime/execution/resource_executor.py:84-118 | One call turns the executor to the next case; an exhausted quota or a cut off halts it, any other error only ends the case |
| `Providers.RunTarget` | src/agent_runtime/evaluation/regression.py:158-197 | The loop turns to every case of its target once and in order, with one result per case; only answered cases are judged; an exhausted quota ends the run |
| `Providers.RunRegression` | src/agent_runtime/evaluation/regression.py:127-137 | The baseline and then the candidate; it succeeds iff nothing stopped its executor, and otherwise raises the quota's refusal or the timeout |
| `Providers.ExecuteAttempt` | src/agent_runtime/execution/resource_executor.py:43-152 | However the system interleaves: an execution succeeds iff its one call was made and answered, and raises what its provider raised; a regression succeeds iff its dataset fits and nothing stopped it; an evaluation always; at most one charge is without its call, only if cut off, within loops and budget |
| `Providers.SourceIsAvailable` | src/agent_runtime/execution/resource_executor.py:56-60 | The "source is unavailable" error cannot arise for a job that `evaluate` made |
| `Worker.RabbitMqWorker.ExecuteClaim` | src/agent_runtime/infrastructure/messaging/worker.py:134-170 | The last step is the worker's own report at the instant sampled after the attempt: the answer iff nothing was raised, otherwise the exception's classified code; if it is persisted, the run holds it |
| `Worker.RabbitMqWorker.HandleRunDelivery` | src/agent_runtime/infrastructure/messaging/worker.py:116-132 | A message is acknowledged only after its claim is decided and, if won, the answer or the code is durable; otherwise, and after an exception in either transaction, committed or not, it goes back; no run is left stranded |
| `Retry.DelayLaw` | src/agent_runtime/domain/retry.py:68-81 | The delay never shrinks, starts at the initial backoff and lies between 1 and max(1, max_backoff) |
| `Retry.DelayDoubles` | src/agent_runtime/domain/retry.py:74-80 | From an initial backoff of at least a second, each delay is twice the one before, up to the maximum |
| `Retry.DelayScales` | src/agent_runtime/domain/retry.py:68-81 | For every policy, a delay one attempt later is that of the policy with twice the initial backoff, until the exponent's cap; with the first delay this determines all |
| `Retry.ExponentCapInvisible` | src/agent_runtime/domain/retry.py:68-81 | For every attempt number a policy allows, the exponent cap changes nothing |
| `Retry.SnapshotRoundTrip` | src/agent_runtime/domain/retry.py:83-105 | Reading back a stored valid policy, alone or over other fields, gives the policy |
| `Retry.SilenceIsDefault` | src/agent_runtime/domain/retry.py:87-105 | A silent field reads as its default and attempts beyond 20 read as 20 |
| `Retry.FromSnapshot` | src/agent_runtime/domain/retry.py:47-66 | What a snapshot parses to satisfies the constructor's checks |
| `Retry.WorthAnotherTry` | src/agent_runtime/domain/retry.py:154-179 | An exception is retried unless a quota refused it or the provider answered with a client error other than 429; each status has its code |
| `Routing.OrderedUnique` | src/agent_runtime/domain/routing.py:106-114 | There is at most one arrangement of the same candidates with increasing sort keys |
| `Routing.SortCandidates` | src/agent_runtime/domain/routing.py:106 | Sorting yields a permutation with increasing sort keys |
| `Routing.ResolveRouting` | src/agent_runtime/domain/routing.py:64-123 | It fails exactly for an unknown strategy, an unacceptable candidate list or no available candidate, and otherwise ranks the available candidates by their keys |
| `Routing.DecisionIsCanonical` | src/agent_runtime/domain/routing.py:83-123 | Permuting the candidates gives the same decision |
| `Routing.AcceptancePermutes` | src/agent_runtime/domain/routing.py:83-104 | Permuting the candidates changes neither acceptance nor availability |
| `Routing.OrderFollowsStrategy` | src/agent_runtime/domain/routing.py:131-168 | Under each strategy no later provider is cheaper, faster, better or lower in the weighted figure, with the other figures breaking ties; recorded scores never fall; the selected provider may precede every available candidate |
| `Routing.ScoreIsTheFigure` | src/agent_runtime/domain/routing.py:131-168 | The recorded score is the figure that the strategy looks at first, up to half a millionth |
| `PolicyBuilder.BuildPolicySnapshot` | src/agent_runtime/domain/retry.py:108-151 | It fails exactly for the listed reasons, and otherwise stores the pass-through fields under the clamped policy and the routing decision |
| `PolicyBuilder.ClampFields` | src/agent_runtime/domain/retry.py:120-142 | The dictionary, rewritten key by key, holds the clamped values |
| `PolicyBuilder.StoredPolicyIsWithinLimits` | src/agent_runtime/domain/retry.py:125-151 | The stored fields parse back within the server's and the request's limits; initial <= max <= server maximum, and base <= initial iff the server's base is within its maximum |
| `PolicyBuilder.StoredPolicyExactly` | src/agent_runtime/domain/retry.py:125-142 | Attempts, timeout and tokens are the least of the request's and the server's values, backoffs the clamped ones, model and instructions pass through, and no field poses as a work kind |
| `PolicyBuilder.BaseCanBeUndercut` | src/agent_runtime/domain/retry.py:133-135 | An accepted request whose stored initial backoff is below the server's base, because the base exceeds the server's maximum |
| `PolicyBuilder.SnapshotIsCanonical` | src/agent_runtime/domain/retry.py:143-151 | Permuting the listed providers is rejected in the same cases and stores the same snapshot |
| `BoundedValue.CheckBounded` | src/agent_runtime/evaluation/safety.py:16-45 | The explicit-stack loop accepts a value iff the recursive definition does, and pops at most one item more than it may count |
| `BoundedValue.Inspect` | src/agent_runtime/evaluation/safety.py:25-43 | One item is fine iff its own text and numbers are and its container is not too long |
| `BoundedValue.Expand` | src/agent_runtime/evaluation/safety.py:21-36 | Replacing an item by its children keeps the totals and what is left to check |
| `BoundedValue.Utf8RoundTrip` | src/agent_runtime/evaluation/safety.py:16-45 | A code point is counted as the length of its UTF-8 encoding, which can be read back |
| `BoundedValue.TextBytesAreEncoded` | src/agent_runtime/evaluation/safety.py:28-42 | The size counted for a text is the length of its encoding |
| `Paging.TakeLaw` | src/agent_runtime/infrastructure/database/run_service.py:206-210 | A page ascends, has the limit's or all rows, and leaves out only later ones |
| `Paging.WalkIsComplete` | src/agent_runtime/infrastructure/database/run_service.py:191-232 | Following cursors over a growing history never meets an invalid one and yields strictly ascending rows that include every row of the first page's history |
| `Paging.PageCount` | src/agent_runtime/api/main.py:657-659 | On a fixed history of n rows the walk stops after floor(n/limit) + 1 pages |

## Left out

- HTTP routes, request schemas, middleware, authentication, encryption, audit, tracing, metrics and logging.
- Broker topology and connections, database sessions and engines: the broker is a multiset of messages, a transaction is a step or a locking session.
- Provider adapters and rule evaluation: their outcome is an arbitrary report. The time limit of an attempt can cut its executor off before or after any charge.
- `validate_schema`, regression scores, gates and report texts, and dataset parsing: they would add easy members only.
- Hash collisions of requests and of advisory lock keys: distinct values have distinct hashes.
- Rounding of floats and timedeltas: seconds, backoffs and scores are reals; only the routing score's rounding to six digits is modelled.
- The ROUTING_DECISION_RECORDED event, event metadata, latency columns and trace contexts, which no property here reads.
- Process crashes inside a service method: a crash is a step of the machine, between the methods' transactions; the worker's method also takes exceptions in either of its transactions.
- Runs.EvaluateRun: the validation of the rules before the transaction is not modelled.
- Dispatcher.OutboxDispatcher.DispatchOne: does not model the order by `created_at` nor rows skipped because they are locked, since outbox rows carry no creation time here.
- Execution.ExecutionService.Claim: the caller's transaction is atomic here; the interleaving of its reads with other sessions is the subject of `Interleaving`.
- Runs.RunService.Submit: the integrity-error branch does not appear in the method; `Idempotency.RaceAnswersAlike` states its answer. The kind "evaluation" is excluded, because no caller submits it and such a job would have no lifecycle record.
- Runs.RunService.Replay: the same; `Idempotency.ReplayRaceAnswersAlike` states its answer.
