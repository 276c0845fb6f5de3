/**
 What the transactions write into a run's rows, told column by column, and the converse: every
 run, every attempt, every result and every scheduled retry of a reachable database goes back to
 one step of the execution that reported exactly what the rows hold.
 */
module Provenance {
  import opened Domain
  import opened Retry
  import opened Tables
  import opened Transitions
  import opened EntryInvariant
  import opened Protocol
  import opened ProtocolInvariant
  import opened Evolution
  import opened Guarantees
  import opened Liveness
  import opened Frames

  // ---------------------------------------------------------------------------------------
  // What a write says
  // ---------------------------------------------------------------------------------------

  /** The error codes that the retry contract lists as worth another attempt. */
  const TRANSIENT: set<ErrorCode> := {
    ProviderTimeout, ProviderRateLimited, ProviderUnavailable, ProviderServerError, ExecutionError, LeaseExpired
  }

  /** The same attempt, claimed by the same worker at the same time. */
  ghost predicate SameClaim(a: Attempt, b: Attempt) {
    b.number == a.number && b.worker == a.worker && b.startedAt == a.startedAt && b.claimedAt == a.claimedAt
  }

  /** The open attempt is closed at `now` and the lease is gone; the other attempts stay. */
  ghost predicate Closes(e: Entry, e': Entry, slot: nat, now: Time) {
    && e.run.status.Running? && |e'.attempts| == |e.attempts| && slot == |e.attempts| - 1
    && (forall i :: 0 <= i < slot ==> e'.attempts[i] == e.attempts[i])
    && SameClaim(e.attempts[slot], e'.attempts[slot]) && e'.attempts[slot].number == slot + 1
    && e.attempts[slot].finishedAt.None? && e'.attempts[slot].finishedAt == Some(now)
    && e'.run.leaseOwner.None? && e'.run.leaseExpires.None? && e'.run.startedAt == e.run.startedAt
  }

  /** The run and its attempt hold the reported payload, and nothing of an earlier failure. */
  ghost predicate StoresSuccess(e: Entry, e': Entry, slot: nat, now: Time, payload: Payload, provider: string) {
    && Closes(e, e', slot, now)
    && e'.attempts[slot].outcome == Some(Success) && e'.attempts[slot].payload == Some(payload) && e'.attempts[slot].provider == provider
    && e'.run.status.Succeeded? && e'.run.result == Some(payload) && e'.run.error.None?
    && e'.run.completedAt == Some(now) && e'.run.nextAttemptAt.None?
    && e'.events == e.events + [RunSucceeded(slot + 1)] && e'.outbox == e.outbox
  }

  /**
   The run and its attempt hold the reported code. A transient one is retried after the policy's
   delay while attempts are left and dead-letters the run with a row of its own when none is; any
   other ends the run.
   */
  ghost predicate StoresFailure(e: Entry, e': Entry, slot: nat, now: Time, code: ErrorCode) {
    && Closes(e, e', slot, now)
    && e'.attempts[slot].outcome == Some(Failure) && e'.attempts[slot].error == Some(code) && e'.attempts[slot].payload.None?
    && e'.attempts[slot].provider == e.attempts[slot].provider && (e'.attempts[slot].retryable <==> code in TRANSIENT)
    && e'.run.result.None? && e'.run.error == Some(code)
    && Policy(e).Ok? && DelayAfterAttempt(Policy(e).value, slot + 1).Ok?
    && if code in TRANSIENT && slot + 1 < Policy(e).value.maxAttempts then
         && e'.run.status.RetryScheduled? && e'.run.completedAt.None?
         && e'.run.nextAttemptAt == Some(now + DelayAfterAttempt(Policy(e).value, slot + 1).value)
         && e'.events == e.events + [RunRetryScheduled(slot + 1)] && e'.outbox == e.outbox
       else
         && e'.run.completedAt == Some(now) && e'.run.nextAttemptAt.None?
         && if code in TRANSIENT then
              && e'.run.status.DeadLettered? && e'.events == e.events + [RunDeadLettered(slot + 1)]
              && e'.outbox == e.outbox + [OutboxRow(DeadLetterRun, None, 0, false)]
            else e'.run.status.Failed? && e'.events == e.events + [RunFailed(slot + 1)] && e'.outbox == e.outbox
  }

  ghost predicate StoresReport(e: Entry, e': Entry, slot: nat, now: Time, report: Report) {
    match report
    case SuccessReport(payload, provider) => StoresSuccess(e, e', slot, now, payload, provider)
    case FailureReport(code) => StoresFailure(e, e', slot, now, code)
  }

  lemma SuccessIsStored(c: Config, clock: Time, e: Entry, slot: nat, worker: Ident, now: Time, payload: Payload, provider: string)
    requires EntryOk(c, clock, e) && MayComplete(e, slot, worker, now)
    ensures StoresSuccess(e, SucceededRows(e, slot, now, payload, provider), slot, now, payload, provider)
  {
    FenceIsLast(c, clock, e, slot, worker, now);
  }

  lemma FailedRowsStore(e: Entry, p: RetryPolicy, now: Time, code: ErrorCode)
    requires Policy(e) == Ok(p) && e.run.status.Running? && e.run.result.None? && e.run.completedAt.None?
    requires e.attempts != [] && e.attempts[|e.attempts| - 1].number == |e.attempts|
    requires e.attempts[|e.attempts| - 1].finishedAt.None? && e.attempts[|e.attempts| - 1].payload.None?
    ensures StoresFailure(e, FailedRows(e, p, |e.attempts| - 1, now, code), |e.attempts| - 1, now, code)
  {
  }

  lemma FailureIsStored(c: Config, clock: Time, e: Entry, now: Time, code: ErrorCode)
    requires EntryOk(c, clock, e) && e.run.status.Running?
    ensures Policy(e).Ok? && e.attempts != []
    ensures StoresFailure(e, FailedRows(e, Policy(e).value, |e.attempts| - 1, now, code), |e.attempts| - 1, now, code)
  {
    FailedRowsStore(e, Policy(e).value, now, code);
  }

  /** A terminal evaluation job also writes its record and its source, and nothing else of its own. */
  lemma OwnRows(c: Config, s: State, r: nat, e: Entry)
    requires Inv(c, s) && r < |s.entries| && e.accepted == s.entries[r].accepted && e.evaluation == s.entries[r].evaluation
    ensures var s' := WriteRows(s, r, e);
            && r < |s'.entries| && s'.entries[r] == e.(evaluation := s'.entries[r].evaluation)
  {
    assert EntryOk(c, s.clock, s.entries[r]) && SourceOk(s.entries, s.entries[r]);
  }

  /**
   What an accepted completion stores, in any state of the invariant: the reported payload under
   the reported provider, or the reported code and what follows from it.
   */
  lemma CompletionIsStored(c: Config, s: State, r: nat, slot: nat, worker: Ident, now: Time, report: Report)
    requires Inv(c, s) && CompleteTx(s, r, slot, worker, now, report).1
    ensures var s' := CompleteTx(s, r, slot, worker, now, report).0;
            r < |s.entries| && r < |s'.entries| && StoresReport(s.entries[r], s'.entries[r], slot, now, report)
  {
    var e := s.entries[r];
    assert EntryOk(c, s.clock, e);
    FenceIsLast(c, s.clock, e, slot, worker, now);
    OwnRows(c, s, r, CompletedRows(e, slot, worker, now, report).value);
    match report {
      case SuccessReport(payload, provider) => SuccessIsStored(c, s.clock, e, slot, worker, now, payload, provider);
      case FailureReport(code) => FailureIsStored(c, s.clock, e, now, code);
    }
  }

  /** The same of every reachable state: an accepted report closes its attempt with what it says. */
  lemma CompletionStoresReport(c: Config, steps: seq<Step>, r: nat, slot: nat, worker: Ident, now: Time, report: Report)
    requires ValidConfig(c) && CompleteTx(After(c, steps), r, slot, worker, now, report).1
    ensures var s, s' := After(c, steps), CompleteTx(After(c, steps), r, slot, worker, now, report).0;
            && r < |s.entries| && r < |s'.entries| && s.entries[r].run.leaseOwner == Some(worker)
            && StoresReport(s.entries[r], s'.entries[r], slot, now, report)
  {
    Reached(c, steps);
    CompletionIsStored(c, After(c, steps), r, slot, worker, now, report);
  }

  /** A recovered lease ends its attempt as an expired one, at the instant of the recovery. */
  lemma RecoveryIsStored(c: Config, s: State, r: nat, now: Time)
    requires Inv(c, s) && r < |s.entries|
    ensures var s' := RecoverTx(s, r, now);
            && r < |s'.entries|
            && if LeaseIsStale(s.entries[r], now) then StoresFailure(s.entries[r], s'.entries[r], |s.entries[r].attempts| - 1, now, LeaseExpired)
               else s' == s
  {
    var e := s.entries[r];
    assert EntryOk(c, s.clock, e);
    if LeaseIsStale(e, now) {
      OpenAttemptIsLast(e.attempts);
      FailureIsStored(c, s.clock, e, now, LeaseExpired);
      OwnRows(c, s, r, RecoveredRows(e, now).value);
    }
  }

  /**
   A recovery ends a run's attempt as an expired one exactly if its lease, counted from its claim,
   has run out by then, and otherwise changes nothing.
   */
  lemma RecoveryIsExact(c: Config, steps: seq<Step>, r: nat, now: Time)
    requires ValidConfig(c) && r < |After(c, steps).entries|
    ensures var s, s' := After(c, steps), RecoverTx(After(c, steps), r, now);
            var e := s.entries[r];
            var n := |e.attempts|;
            && r < |s'.entries|
            && if e.run.status.Running? && n > 0 && e.attempts[n - 1].claimedAt + c.leaseSeconds <= now
               then StoresFailure(e, s'.entries[r], n - 1, now, LeaseExpired) else s' == s
  {
    Reached(c, steps);
    var s := After(c, steps);
    assert EntryOk(c, s.clock, s.entries[r]);
    RecoveryIsStored(c, s, r, now);
  }

  /** A due retry is queued again: its time is gone, and a row of its own will publish it. */
  ghost predicate Requeues(e: Entry, e': Entry, at: Time) {
    && e.run.status.RetryScheduled? && e'.attempts == e.attempts
    && e'.run == e.run.(status := Queued, nextAttemptAt := None, queuedAt := at)
    && e'.outbox == e.outbox + [OutboxRow(QueueRun, None, 0, false)] && e'.events == e.events + [RunRetryQueued]
  }

  lemma ScheduleIsStored(s: State, r: nat, now: Time)
    requires r < |s.entries|
    ensures var e, s' := s.entries[r], ScheduleTx(s, r, now);
            && r < |s'.entries|
            && if e.run.status.RetryScheduled? && e.run.nextAttemptAt.Some? && e.run.nextAttemptAt.value <= now
               then Requeues(e, s'.entries[r], s.clock) else s' == s
  {
  }

  lemma ClaimIsStored(c: Config, s: State, r: nat, d: nat, worker: Ident, seen: Observed)
    requires Inv(c, s) && r < |s.entries|
    ensures var e, s' := s.entries[r], ClaimDelivery(c, s, r, d, worker, seen);
            && r < |s'.entries|
            && var e' := s'.entries[r];
               SameRun(e, e') || Opens(c, e, e', worker, seen) || Defers(e, e', seen) || GivesUp(e, e', seen)
  {
    var e := s.entries[r];
    assert EntryOk(c, s.clock, e);
    ClaimRowsOutcome(c, s.clock, e, worker, seen);
    OwnClaim(e, worker, c, seen);
    OwnRows(c, s, r, ClaimRows(c, e, worker, seen).0);
  }

  lemma OwnClaim(e: Entry, worker: Ident, c: Config, seen: Observed)
    ensures var e' := ClaimRows(c, e, worker, seen).0; e'.accepted == e.accepted && e'.evaluation == e.evaluation
  {
  }

  /** What a step says of the run whose row it writes. */
  ghost predicate Tells(c: Config, s: State, step: Step, e: Entry, e': Entry) {
    match step
    case Claim(_, _, worker, seen) => Opens(c, e, e', worker, seen) || Defers(e, e', seen) || GivesUp(e, e', seen)
    case Complete(_, slot, worker, now, report) => e.run.leaseOwner == Some(worker) && StoresReport(e, e', slot, now, report)
    case Recover(_, now) => LeaseIsStale(e, now) && e.attempts != [] && StoresFailure(e, e', |e.attempts| - 1, now, LeaseExpired)
    case Schedule(_, now) => RetryIsDue(e, now) && Requeues(e, e', s.clock)
    case _ => false
  }

  /** A step leaves a run's row and its attempts alone, or it locks the row and tells what it writes. */
  lemma StepTells(c: Config, s: State, step: Step, r: nat)
    requires Inv(c, s) && r < |s.entries|
    ensures r < |Apply(c, s, step).entries|
    ensures var e, e' := s.entries[r], Apply(c, s, step).entries[r];
            SameRun(e, e') || (Writes(step, r) && Tells(c, s, step, e, e'))
  {
    if !Writes(step, r) {
      RunFrame(c, s, step, r);
    } else {
      match step {
        case Claim(_, d, worker, seen) => ClaimIsStored(c, s, r, d, worker, seen);
        case Complete(_, slot, worker, now, report) =>
          if CompleteTx(s, r, slot, worker, now, report).1 {
            CompletionIsStored(c, s, r, slot, worker, now, report);
          }
        case Recover(_, now) => RecoveryIsStored(c, s, r, now);
        case Schedule(_, now) => ScheduleIsStored(s, r, now);
      }
    }
  }

  // ---------------------------------------------------------------------------------------
  // Which step it was
  // ---------------------------------------------------------------------------------------

  /** What holds now and did not hold at first was brought about by some step in between. */
  lemma {:induction false} Crossing(c: Config, steps: seq<Step>, holds: State -> bool) returns (k: nat)
    requires c.limits.windowSeconds > 0 && !holds(INITIAL) && holds(After(c, steps))
    ensures k < |steps| && !holds(After(c, steps[..k])) && holds(After(c, steps[..k + 1]))
    decreases |steps|
  {
    var n := |steps| - 1;
    var before := steps[..n];
    assert steps == before + [steps[n]];
    if holds(After(c, before)) {
      k := Crossing(c, before, holds);
      assert before[..k] == steps[..k] && before[..k + 1] == steps[..k + 1];
    } else {
      k := n;
      assert steps[..k + 1] == steps;
    }
  }

  /** What a row was after a step of the past has only evolved since. */
  lemma Since(c: Config, steps: seq<Step>, k: nat, r: nat)
    requires ValidConfig(c) && k <= |steps| && r < |After(c, steps[..k]).entries|
    ensures r < |After(c, steps).entries| && Evolves(After(c, steps[..k]).entries[r], After(c, steps).entries[r])
  {
    assert steps == steps[..k] + steps[k..];
    ExecuteConcat(c, INITIAL, steps[..k], steps[k..]);
    Reached(c, steps[..k]);
    ExecuteEvolves(c, After(c, steps[..k]), steps[k..], r);
  }

  predicate Finished(s: State, r: nat, slot: nat) {
    r < |s.entries| && slot < |s.entries[r].attempts| && s.entries[r].attempts[slot].finishedAt.Some?
  }

  /** The step is the report of the worker that claimed the attempt, or the recovery of its lease. */
  ghost predicate ClosedBy(step: Step, r: nat, slot: nat, a: Attempt) {
    match step
    case Complete(r', slot', worker, now, report) =>
      && r' == r && slot' == slot && worker == a.worker && a.finishedAt == Some(now)
      && (match report
          case SuccessReport(payload, provider) => a.outcome == Some(Success) && a.payload == Some(payload) && a.provider == provider
          case FailureReport(code) => a.outcome == Some(Failure) && a.error == Some(code) && a.payload.None?)
    case Recover(r', now) => r' == r && a.finishedAt == Some(now) && a.outcome == Some(Failure) && a.error == Some(LeaseExpired)
    case _ => false
  }

  /** Of the writes, only reports and recoveries close an attempt. */
  lemma TellingCloses(c: Config, s: State, step: Step, e: Entry, e': Entry, r: nat, slot: nat)
    requires EntryOk(c, s.clock, e) && Writes(step, r) && Tells(c, s, step, e, e')
    requires slot < |e'.attempts| && e'.attempts[slot].finishedAt.Some?
    requires slot < |e.attempts| ==> e.attempts[slot].finishedAt.None?
    ensures ClosedBy(step, r, slot, e'.attempts[slot])
  {
  }

  /** A new run is queued and untried, so whatever shows a trace of work was there before the step. */
  lemma WorkedBefore(c: Config, s: State, step: Step, r: nat)
    requires c.limits.windowSeconds > 0 && r < |Apply(c, s, step).entries|
    requires Apply(c, s, step).entries[r].attempts != [] || !Apply(c, s, step).entries[r].run.status.Queued?
    ensures r < |s.entries|
  {
  }

  lemma StepAt(c: Config, steps: seq<Step>, k: nat)
    requires c.limits.windowSeconds > 0 && k < |steps|
    ensures After(c, steps[..k + 1]) == Apply(c, After(c, steps[..k]), steps[k])
  {
    assert steps[..k + 1] == steps[..k] + [steps[k]];
    ExecuteSnoc(c, INITIAL, steps[..k], steps[k]);
  }

  /** What the k-th step told of a run that was worked on before it or in it. */
  lemma Told(c: Config, steps: seq<Step>, k: nat, r: nat) returns (s: State, e: Entry, e': Entry)
    requires ValidConfig(c) && k < |steps| && r < |After(c, steps[..k + 1]).entries|
    requires After(c, steps[..k + 1]).entries[r].attempts != [] || !After(c, steps[..k + 1]).entries[r].run.status.Queued?
    ensures r < |After(c, steps[..k]).entries| && e == After(c, steps[..k]).entries[r] && e' == After(c, steps[..k + 1]).entries[r]
    ensures EntryOk(c, s.clock, e) && (SameRun(e, e') || (Writes(steps[k], r) && Tells(c, s, steps[k], e, e')))
    ensures e'.accepted == e.accepted
  {
    StepAt(c, steps, k);
    s := After(c, steps[..k]);
    Reached(c, steps[..k]);
    WorkedBefore(c, s, steps[k], r);
    StepTells(c, s, steps[k], r);
    StepMoves(c, s, steps[k]);
    e, e' := s.entries[r], After(c, steps[..k + 1]).entries[r];
    assert EntryOk(c, s.clock, e) && Moves(e, e');
  }

  lemma FinishedStays(c: Config, steps: seq<Step>, k: nat, r: nat, slot: nat)
    requires ValidConfig(c) && k <= |steps| && Finished(After(c, steps[..k]), r, slot)
    ensures Finished(After(c, steps), r, slot)
    ensures After(c, steps).entries[r].attempts[slot] == After(c, steps[..k]).entries[r].attempts[slot]
  {
    Since(c, steps, k, r);
    assert AttemptEvolves(After(c, steps[..k]).entries[r].attempts[slot], After(c, steps).entries[r].attempts[slot]);
  }

  /**
   Every closed attempt was closed by one step: the report of the worker that claimed it, with
   the very payload and provider or code that the attempt holds, or the recovery of its lease.
   */
  lemma AttemptWasReported(c: Config, steps: seq<Step>, r: nat, slot: nat) returns (k: nat)
    requires ValidConfig(c) && Finished(After(c, steps), r, slot)
    ensures k < |steps| && ClosedBy(steps[k], r, slot, After(c, steps).entries[r].attempts[slot])
    ensures !Finished(After(c, steps[..k]), r, slot) && Finished(After(c, steps[..k + 1]), r, slot)
  {
    k := Crossing(c, steps, (s: State) => Finished(s, r, slot));
    var s, e, e' := Told(c, steps, k, r);
    TellingCloses(c, s, steps[k], e, e', r, slot);
    FinishedStays(c, steps, k + 1, r, slot);
  }

  lemma LaterReport(c: Config, steps: seq<Step>, r: nat, slot: nat, k: nat, j: nat, worker: Ident, now: Time, report: Report)
    requires ValidConfig(c) && k <= j <= |steps| && Finished(After(c, steps[..k]), r, slot)
    ensures CompleteTx(After(c, steps[..j]), r, slot, worker, now, report) == (After(c, steps[..j]), false)
  {
    assert steps[..j] == steps[..k] + steps[k..j];
    ExecuteConcat(c, INITIAL, steps[..k], steps[k..j]);
    AttemptsFinishOnce(c, steps[..k], steps[k..j], r, slot, worker, now, report);
  }

  /** It was the only one: every other report that names the attempt was refused. */
  lemma OtherReportsAreRefused(c: Config, steps: seq<Step>, r: nat, slot: nat, k: nat, j: nat)
    requires ValidConfig(c) && k < |steps| && j < |steps| && j != k
    requires !Finished(After(c, steps[..k]), r, slot) && Finished(After(c, steps[..k + 1]), r, slot)
    requires steps[j].Complete? && steps[j].r == r && steps[j].slot == slot
    ensures After(c, steps[..j + 1]) == After(c, steps[..j])
  {
    var x, s, s' := steps[j], After(c, steps[..j]), After(c, steps[..j + 1]);
    ReportAt(c, steps, j);
    if j > k {
      LaterReport(c, steps, r, slot, k + 1, j, x.worker, x.now, x.report);
    } else if s' != s {
      CompletionStoresReport(c, steps[..j], r, slot, x.worker, x.now, x.report);
      assert steps[..k][..j + 1] == steps[..j + 1];
      FinishedStays(c, steps[..k], j + 1, r, slot);
    }
  }

  lemma ReportAt(c: Config, steps: seq<Step>, j: nat)
    requires c.limits.windowSeconds > 0 && j < |steps| && steps[j].Complete?
    ensures var x, s, s' := steps[j], After(c, steps[..j]), After(c, steps[..j + 1]);
            && (s' == s || s' == CompleteTx(s, x.r, x.slot, x.worker, x.now, x.report).0)
            && (s' != s ==> CompleteTx(s, x.r, x.slot, x.worker, x.now, x.report).1)
  {
    StepAt(c, steps, j);
  }

  /** A run's result is what the worker of its last attempt reported, and nothing else. */
  lemma ResultWasReported(c: Config, steps: seq<Step>, r: nat) returns (k: nat)
    requires ValidConfig(c) && r < |After(c, steps).entries| && After(c, steps).entries[r].run.result.Some?
    ensures var e := After(c, steps).entries[r];
            && e.attempts != [] && k < |steps|
            && var a := e.attempts[|e.attempts| - 1];
               && a.finishedAt.Some?
               && steps[k] == Complete(r, |e.attempts| - 1, a.worker, a.finishedAt.value, SuccessReport(e.run.result.value, a.provider))
  {
    Reached(c, steps);
    var s := After(c, steps);
    var e := s.entries[r];
    assert EntryOk(c, s.clock, e);
    k := AttemptWasReported(c, steps, r, |e.attempts| - 1);
  }

  /** Of the writes, only claims add an attempt, and only one. */
  lemma TellingOpens(c: Config, s: State, step: Step, e: Entry, e': Entry, r: nat, slot: nat)
    requires Writes(step, r) && Tells(c, s, step, e, e') && |e.attempts| <= slot < |e'.attempts|
    ensures step.Claim? && step.r == r
    ensures var a := e'.attempts[slot];
            a.worker == step.worker && a.claimedAt == step.seen.now && a.startedAt == step.seen.txStart && a.number == slot + 1
  {
  }

  /** Every attempt was opened by one claim of its worker, which dates it. */
  lemma AttemptWasClaimed(c: Config, steps: seq<Step>, r: nat, slot: nat) returns (k: nat)
    requires ValidConfig(c) && r < |After(c, steps).entries| && slot < |After(c, steps).entries[r].attempts|
    ensures var a := After(c, steps).entries[r].attempts[slot];
            && k < |steps| && steps[k].Claim? && steps[k].r == r && steps[k].worker == a.worker
            && a.claimedAt == steps[k].seen.now && a.startedAt == steps[k].seen.txStart && a.number == slot + 1
  {
    k := Crossing(c, steps, (s: State) => r < |s.entries| && slot < |s.entries[r].attempts|);
    var s, e, e' := Told(c, steps, k, r);
    TellingOpens(c, s, steps[k], e, e', r, slot);
    Since(c, steps, k + 1, r);
    assert AttemptEvolves(e'.attempts[slot], After(c, steps).entries[r].attempts[slot]);
  }

  // ---------------------------------------------------------------------------------------
  // When a retry is due
  // ---------------------------------------------------------------------------------------

  /** The step scheduled the retry: by a failure, after the policy's delay, or by a deferral, after a second. */
  ghost predicate DueBy(step: Step, r: nat, e: Entry) {
    match step
    case Claim(r', _, _, seen) => r' == r && e.run.nextAttemptAt == Some(seen.now + 1.0)
    case Complete(r', slot, _, now, report) =>
      r' == r && slot + 1 == |e.attempts| && report.FailureReport? && FollowsFailure(e, now, report.code)
    case Recover(r', now) => r' == r && e.attempts != [] && FollowsFailure(e, now, LeaseExpired)
    case _ => false
  }

  /** The last attempt failed at `now` with a transient code, and the retry is due the policy's delay later. */
  ghost predicate FollowsFailure(e: Entry, now: Time, code: ErrorCode)
    requires e.attempts != []
  {
    && code in TRANSIENT && e.run.error == Some(code) && e.attempts[|e.attempts| - 1].finishedAt == Some(now)
    && Policy(e).Ok? && |e.attempts| < Policy(e).value.maxAttempts
    && DelayAfterAttempt(Policy(e).value, |e.attempts|).Ok?
    && e.run.nextAttemptAt == Some(now + DelayAfterAttempt(Policy(e).value, |e.attempts|).value)
  }

  lemma TellingSchedules(c: Config, s: State, step: Step, e: Entry, e': Entry, r: nat)
    requires Writes(step, r) && Tells(c, s, step, e, e') && e'.accepted == e.accepted && e'.run.status.RetryScheduled?
    ensures DueBy(step, r, e')
  {
  }

  lemma SameDue(step: Step, r: nat, e: Entry, e': Entry)
    requires SameRun(e', e) && DueBy(step, r, e)
    ensures DueBy(step, r, e')
  {
  }

  /**
   A waiting run was scheduled by one step: a failure of its last attempt, and then it is due
   exactly the policy's delay after that attempt finished, or a claim that met full capacity.
   */
  lemma RetryWasScheduled(c: Config, steps: seq<Step>, r: nat) returns (k: nat)
    requires ValidConfig(c) && r < |After(c, steps).entries| && After(c, steps).entries[r].run.status.RetryScheduled?
    ensures k < |steps| && DueBy(steps[k], r, After(c, steps).entries[r])
  {
    var now := After(c, steps).entries[r];
    k := Crossing(c, steps, (s: State) => r < |s.entries| && SameRun(now, s.entries[r]));
    var s, e, e' := Told(c, steps, k, r);
    TellingSchedules(c, s, steps[k], e, e', r);
    SameDue(steps[k], r, e', now);
  }

  // ---------------------------------------------------------------------------------------
  // Who asked for a run
  // ---------------------------------------------------------------------------------------

  /** The run is what the request asks for, on behalf of its principal, or of its client if it names none. */
  ghost predicate AskedBy(s: State, step: Step, e: Entry) {
    var a := e.accepted;
    match step
    case Submit(q, _) =>
      && a.client == q.client && a.principal == (match q.principal case Some(id) => id case None => q.client)
      && a.key == q.key && a.kind == q.kind && a.input == q.input && a.snapshot == q.snapshot
      && a.replayOf.None? && e.evaluation.None?
    case Replay(q, _) =>
      && a.client == q.client && a.principal == (match q.principal case Some(id) => id case None => q.client)
      && a.key == q.key && a.kind.ExecutionWork? && a.replayOf == Some(q.source) && e.evaluation.None?
      && q.source < |s.entries|
      && a.input == s.entries[q.source].accepted.input && a.snapshot == s.entries[q.source].accepted.snapshot
    case Evaluate(q, _) =>
      && a.client == q.client && a.principal == (match q.principal case Some(id) => id case None => q.client)
      && a.key == q.key && a.kind.EvaluationWork? && a.input == RulesFor(q.source, q.rules) && a.replayOf.None?
      && (Policy(e).Ok? ==> Policy(e).value.maxAttempts == 1)
      && e.evaluation.Some? && e.evaluation.value.source == q.source
      && e.evaluation.value.id == q.id && e.evaluation.value.createdAt == q.stamp
    case _ => false
  }

  lemma EvaluationIsAskedFor(c: Config, s: State, q: EvaluateRequest, seen: Observed)
    requires c.limits.windowSeconds > 0 && EvaluateStep(c, s, q, seen) != s
    ensures var b := EvaluateStep(c, s, q, seen).entries;
            |b| == |s.entries| + 1 && AskedBy(s, Step.Evaluate(q, seen), b[|s.entries|])
  {
  }

  lemma ReplayIsAskedFor(c: Config, s: State, q: ReplayRequest, seen: Observed)
    requires c.limits.windowSeconds > 0 && ReplayStep(c, s, q, seen) != s
    ensures var b := ReplayStep(c, s, q, seen).entries;
            |b| == |s.entries| + 1 && AskedBy(s, Step.Replay(q, seen), b[|s.entries|])
  {
  }

  lemma NewRunIsAskedFor(c: Config, s: State, step: Step)
    requires c.limits.windowSeconds > 0 && |Apply(c, s, step).entries| > |s.entries|
    ensures |Apply(c, s, step).entries| == |s.entries| + 1 && AskedBy(s, step, Apply(c, s, step).entries[|s.entries|])
  {
    match step {
      case Evaluate(q, seen) => EvaluationIsAskedFor(c, s, q, seen);
      case Replay(q, seen) => ReplayIsAskedFor(c, s, q, seen);
      case Submit(_, _) =>
      case _ => SameLength(c, s, step);
    }
  }

  /** Every run was asked for by one request, whose own fields it still has. */
  lemma RunWasAskedFor(c: Config, steps: seq<Step>, r: nat) returns (k: nat)
    requires ValidConfig(c) && r < |After(c, steps).entries|
    ensures k < |steps| && |After(c, steps[..k]).entries| == r
    ensures AskedBy(After(c, steps[..k]), steps[k], After(c, steps).entries[r])
  {
    k := Crossing(c, steps, (s: State) => r < |s.entries|);
    var s := After(c, steps[..k]);
    StepAt(c, steps, k);
    NewRunIsAskedFor(c, s, steps[k]);
    Since(c, steps, k + 1, r);
  }
}
