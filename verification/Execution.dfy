/**
 The execution service: claims, completions, recovery and retry scheduling, written as the
 sequences of row updates that its transactions make. The methods on states work within one
 session; those of the class commit to the store, where each one is a step of the machine.
 */
module Execution {
  import opened Domain
  import opened Retry
  import opened Tables
  import opened Transitions
  import opened EntryInvariant
  import opened Protocol
  import opened ProtocolInvariant
  import opened Guarantees
  import opened Liveness
  import opened Provenance
  import opened Store
  import Quota

  // ---------------------------------------------------------------------------------------
  // Queries
  // ---------------------------------------------------------------------------------------

  method NextAttemptNumber(attempts: seq<Attempt>) returns (number: int)
    ensures number == MaxNumber(attempts) + 1
    ensures forall i :: 0 <= i < |attempts| ==> attempts[i].number < number
  {
    var latest := 0;
    for i := 0 to |attempts|
      invariant latest == MaxNumber(attempts[..i])
      invariant forall k :: 0 <= k < i ==> attempts[k].number <= latest
    {
      assert attempts[..i + 1][..i] == attempts[..i];
      if attempts[i].number > latest {
        latest := attempts[i].number;
      }
    }
    assert attempts[..|attempts|] == attempts;
    number := latest + 1;
  }

  method LatestOpenAttempt(attempts: seq<Attempt>) returns (slot: Option<nat>)
    ensures slot == LatestOpen(attempts)
    ensures slot.None? ==> forall i :: 0 <= i < |attempts| ==> attempts[i].finishedAt.Some?
    ensures slot.Some? ==> forall i :: 0 <= i < |attempts| && attempts[i].finishedAt.None? ==>
                             attempts[i].number <= attempts[slot.value].number
  {
    slot := None;
    for i := 0 to |attempts|
      invariant slot == LatestOpen(attempts[..i])
      invariant slot.None? ==> forall k :: 0 <= k < i ==> attempts[k].finishedAt.Some?
      invariant slot.Some? ==> forall k :: 0 <= k < i && attempts[k].finishedAt.None? ==>
                                 attempts[k].number <= attempts[slot.value].number
    {
      assert attempts[..i + 1][..i] == attempts[..i];
      if attempts[i].finishedAt.None? && (slot.None? || attempts[slot.value].number <= attempts[i].number) {
        slot := Some(i);
      }
    }
    assert attempts[..|attempts|] == attempts;
  }

  /** Whether job `r` carries what `order by created_at desc, id desc limit 1` returns for its source. */
  method CarriesLatest(entries: seq<Entry>, r: nat) returns (latest: bool)
    requires r < |entries| && entries[r].evaluation.Some?
    ensures latest == IsLatest(entries, r)
  {
    latest := true;
    for k := 0 to |entries|
      invariant latest <==> forall i :: 0 <= i < k && i != r && Evaluates(entries[i], entries[r].evaluation.value.source) ==>
                              !Newer(entries[i].evaluation.value, entries[r].evaluation.value)
    {
      if k != r && Evaluates(entries[k], entries[r].evaluation.value.source) &&
         Newer(entries[k].evaluation.value, entries[r].evaluation.value) {
        latest := false;
      }
    }
  }

  // ---------------------------------------------------------------------------------------
  // Row updates
  // ---------------------------------------------------------------------------------------

  /** The record says how the job ended: passed or not as its result says, an error if there is no success. */
  ghost predicate SaysHowItEnded(run: Run, evaluation: Option<Evaluation>) {
    && evaluation.Some? && evaluation.value.completedAt == run.completedAt
    && (run.status.Succeeded? ==> evaluation.value.result == run.result)
    && (evaluation.value.status == Passed <==> run.status.Succeeded? && run.result.Some? && run.result.value.passed)
    && (evaluation.value.status == NotPassed <==> run.status.Succeeded? && (run.result.Some? ==> !run.result.value.passed))
    && (evaluation.value.status == EvaluationError <==> !run.status.Succeeded?)
  }

  /** `_finalize_evaluation_job`; the error is the missing lifecycle record. */
  method FinalizeEvaluationJob(s: State, r: nat) returns (out: Result<State>)
    requires r < |s.entries|
    ensures !s.entries[r].accepted.kind.EvaluationWork? ==> out == Ok(s)
    ensures LacksRecord(s.entries[r]) ==> out.Err?
    ensures s.entries[r].accepted.kind.EvaluationWork? && s.entries[r].evaluation.Some? ==> out == Ok(FinalizeEvaluation(s, r))
    ensures out.Ok? && s.entries[r].accepted.kind.EvaluationWork? ==>
              r < |out.value.entries| && SaysHowItEnded(s.entries[r].run, out.value.entries[r].evaluation)
  {
    var job := s.entries[r];
    if !job.accepted.kind.EvaluationWork? {
      return Ok(s);
    }
    if job.evaluation.None? {
      return Err;
    }
    var record := job.evaluation.value;
    if job.run.status.Succeeded? {
      var passed := job.run.result.Some? && job.run.result.value.passed;
      record := record.(status := if passed then Passed else NotPassed);
      record := record.(result := job.run.result);
    } else {
      record := record.(status := EvaluationError);
    }
    record := record.(completedAt := job.run.completedAt);
    var rows := Put(s, r, job.(evaluation := Some(record)));
    if record.source < |rows.entries| {
      var source := rows.entries[record.source];
      var latest := CarriesLatest(rows.entries, r);
      if latest {
        source := source.(evaluationStatus := record.status);
      }
      source := source.(events := source.events + [EvaluationChanged(r, record.status)]);
      rows := Put(rows, record.source, source);
    }
    return Ok(rows);
  }

  /** `_finish_failed_attempt`. */
  method FinishFailedAttempt(attempt: Attempt, now: Time, code: ErrorCode) returns (finished: Attempt)
    ensures finished == FailedAttempt(attempt, now, code)
    ensures finished.finishedAt.Some? && (finished.retryable <==> IsRetryable(code)) && finished.number == attempt.number
  {
    finished := attempt.(finishedAt := Some(now));
    finished := finished.(outcome := Some(Failure));
    finished := finished.(error := Some(code));
    finished := finished.(retryable := IsRetryable(code));
  }

  /**
   `_finish_failed_attempt` and then `_schedule_retry_or_finalize`. The errors are an unreadable
   policy, an attempt number below one and a missing evaluation record.
   */
  method FailAttempt(s: State, r: nat, slot: nat, now: Time, code: ErrorCode) returns (out: Result<State>)
    requires r < |s.entries| && slot < |s.entries[r].attempts| && s.entries[r].run.status.Running?
    ensures out.Err? ==> Policy(s.entries[r]).Err? || s.entries[r].attempts[slot].number < 1 || LacksRecord(s.entries[r])
    ensures out.Ok? ==> Policy(s.entries[r]).Ok?
    ensures out.Ok? && LacksRecord(s.entries[r]) ==> r < |out.value.entries| && out.value.entries[r].run.status.RetryScheduled?
    ensures out.Ok? && s.entries[r].attempts[slot].number >= 1 ==>
              out.value == WriteRows(s, r, FailedRows(s.entries[r], Policy(s.entries[r]).value, slot, now, code))
  {
    var e := s.entries[r];
    var attempt := FinishFailedAttempt(e.attempts[slot], now, code);
    e := e.(attempts := e.attempts[slot := attempt]);
    var policy := FromSnapshot(e.accepted.snapshot);
    if policy.Err? {
      return Err;
    }
    var run := e.run.(leaseOwner := None, leaseExpires := None);
    run := run.(error := Some(code));
    if attempt.retryable && attempt.number < policy.value.maxAttempts {
      var delay := DelayAfterAttempt(policy.value, attempt.number);
      if delay.Err? {
        return Err;
      }
      run := run.(status := RetryScheduled);
      run := run.(nextAttemptAt := Some(now + delay.value));
      e := e.(run := run, events := e.events + [RunRetryScheduled(attempt.number)]);
      return Ok(Put(s, r, e));
    }
    run := run.(nextAttemptAt := None);
    run := run.(completedAt := Some(now));
    if attempt.retryable {
      run := run.(status := DeadLettered);
      e := e.(outbox := e.outbox + [NewOutboxRow(DeadLetterRun)]);
      e := e.(run := run, events := e.events + [RunDeadLettered(attempt.number)]);
    } else {
      run := run.(status := Failed);
      e := e.(run := run, events := e.events + [RunFailed(attempt.number)]);
    }
    out := FinalizeEvaluationJob(Put(s, r, e), r);
  }

  /** The body of `claim`: every branch on the rows as they are, with both capacity counts. */
  method ClaimRun(c: Config, s: State, r: nat, worker: Ident, txStart: Time) returns (out: Result<State>, decision: Decision)
    ensures r >= |s.entries| ==> out == Ok(s) && decision == Missing
    ensures out.Err? ==> r < |s.entries| && LacksRecord(s.entries[r])
    ensures out.Ok? && r < |s.entries| ==> (out.value, decision) == ClaimTx(c, s, r, worker, ExactRunning(s, r, txStart))
  {
    if r >= |s.entries| {
      return Ok(s), Missing;
    }
    var e, now := s.entries[r], s.clock;
    var run := e.run;
    if Terminal(run.status) {
      return Ok(Put(s, r, e)), AlreadyTerminal;
    }
    if run.status.Running? {
      if run.leaseExpires.None? || run.leaseExpires.value > now {
        return Ok(Put(s, r, e)), ActiveLease;
      }
      return Ok(Put(s, r, e)), NotReady;
    }
    if !run.status.Queued? {
      return Ok(Put(s, r, e)), NotReady;
    }
    var full := false;
    var running := CountRunning(s.entries, Quota.PrincipalScope(e.accepted.principal));
    if running >= c.principalRunning {
      full := true;
    } else {
      running := CountRunning(s.entries, Quota.TenantScope(e.accepted.client));
      full := running >= c.tenantRunning;
    }
    if full {
      run := run.(status := RetryScheduled);
      run := run.(nextAttemptAt := Some(now + 1.0));
      return Ok(Put(s, r, e.(run := run))), NotReady;
    }
    var number := NextAttemptNumber(e.attempts);
    var policy := FromSnapshot(e.accepted.snapshot);
    if policy.Err? || number > Min(policy.value.maxAttempts, c.maxAttempts) || number < 1 {
      run := run.(status := Failed);
      run := run.(error := Some(InvalidStoredPolicy));
      run := run.(completedAt := Some(now));
      out := FinalizeEvaluationJob(Put(s, r, e.(run := run)), r);
      return out, AlreadyTerminal;
    }
    e := OpenAttempt(c, e, policy.value, number, worker, txStart, now);
    return Ok(Put(s, r, e)), Claimed(|e.attempts| - 1);
  }

  /** The new attempt and the lease. */
  method OpenAttempt(c: Config, e: Entry, policy: RetryPolicy, number: int, worker: Ident, txStart: Time, now: Time) returns (claimed: Entry)
    requires Valid(policy) && number >= 1
    ensures claimed == Leased(c, e, policy, number, worker, now, txStart) && |claimed.attempts| == |e.attempts| + 1
  {
    var provider := policy.providerOrder[Min(number - 1, |policy.providerOrder| - 1)];
    var attempt := Attempt(number, provider, worker, txStart, now, None, None, None, false, None);
    var run := e.run;
    run := run.(status := Running);
    run := run.(leaseOwner := Some(worker));
    run := run.(leaseExpires := Some(now + c.leaseSeconds));
    if run.startedAt.None? {
      run := run.(startedAt := Some(now));
    }
    claimed := e.(run := run, attempts := e.attempts + [attempt], spending := e.spending + [NewExecutor()]);
    claimed := claimed.(events := claimed.events + [RunClaimed(number)]);
  }

  /** The counts a claim reads when nobody else writes in between. */
  function ExactRunning(s: State, r: nat, txStart: Time): Observed
    requires r < |s.entries|
  {
    Observed(txStart, s.clock,
             RunningIn(s.entries, Quota.PrincipalScope(s.entries[r].accepted.principal)),
             RunningIn(s.entries, Quota.TenantScope(s.entries[r].accepted.client)))
  }

  lemma ExactIsCovered(c: Config, s: State, r: nat, txStart: Time)
    requires Inv(c, s) && r < |s.entries|
    ensures CoversRunning(s, r, ExactRunning(s, r, txStart)) && SampledInQueue(s, r, ExactRunning(s, r, txStart))
  {
    assert EntryOk(c, s.clock, s.entries[r]);
  }

  /** The claim of a delivery, as a step of the machine. */
  lemma ClaimStep(c: Config, s: State, r: nat, d: nat, worker: Ident, txStart: Time)
    requires Inv(c, s) && r < |s.entries| && txStart <= s.clock
    ensures var seen := ExactRunning(s, r, txStart);
            Execute(c, s, [Step.Claim(r, d, worker, seen)]) == ClaimAndDecide(c, s, r, d, worker, seen)
  {
    ExactIsCovered(c, s, r, txStart);
    One(c, s, Step.Claim(r, d, worker, ExactRunning(s, r, txStart)));
  }

  /** The attempt is closed at `now` with the reported payload and provider, or code, and so is the run's own outcome. */
  ghost predicate HoldsReport(e: Entry, e': Entry, slot: nat, now: Time, report: Report) {
    && slot < |e.attempts| == |e'.attempts| && e'.attempts[slot].finishedAt == Some(now) && e'.run.leaseOwner.None?
    && (forall i :: 0 <= i < |e.attempts| && i != slot ==> e'.attempts[i] == e.attempts[i])
    && match report
       case SuccessReport(payload, provider) =>
         && e'.run.status.Succeeded? && e'.run.result == Some(payload) && e'.run.error.None? && e'.run.completedAt == Some(now)
         && e'.attempts[slot].payload == Some(payload) && e'.attempts[slot].provider == provider
       case FailureReport(code) =>
         && !e'.run.status.Succeeded? && e'.run.result == e.run.result && e'.run.error == Some(code)
         && e'.attempts[slot].error == Some(code) && (e'.attempts[slot].retryable <==> code in TRANSIENT)
  }

  /** `complete_success` and `complete_failure`: the shared fence, then the rows of the report. */
  method CompleteRun(s: State, r: nat, slot: nat, worker: Ident, now: Time, report: Report) returns (out: Result<State>, done: bool)
    ensures out.Err? ==> r < |s.entries| && slot < |s.entries[r].attempts| &&
                         (Policy(s.entries[r]).Err? || s.entries[r].attempts[slot].number < 1 || LacksRecord(s.entries[r]))
    ensures done ==> r < |s.entries| && slot < |s.entries[r].attempts|
    ensures out.Ok? && (r < |s.entries| && slot < |s.entries[r].attempts| ==> s.entries[r].attempts[slot].number >= 1) ==>
              (out.value, done) == CompleteTx(s, r, slot, worker, now, report)
    ensures out.Ok? && done && s.entries[r].attempts[slot].number >= 1 ==>
              r < |out.value.entries| && HoldsReport(s.entries[r], out.value.entries[r], slot, now, report)
  {
    if r >= |s.entries| || !OwnsActiveLease(s.entries[r].run, worker, now) {
      return Ok(s), false;
    }
    var e := s.entries[r];
    if slot >= |e.attempts| || e.attempts[slot].finishedAt.Some? {
      return Ok(s), false;
    }
    match report {
      case SuccessReport(payload, provider) =>
        var attempt := e.attempts[slot];
        attempt := attempt.(provider := provider);
        attempt := attempt.(finishedAt := Some(now));
        attempt := attempt.(outcome := Some(Success), payload := Some(payload));
        var run := e.run;
        run := run.(status := Succeeded);
        run := run.(result := Some(payload));
        run := run.(completedAt := Some(now));
        run := run.(error := None);
        run := run.(nextAttemptAt := None);
        run := run.(leaseOwner := None, leaseExpires := None);
        e := e.(run := run, attempts := e.attempts[slot := attempt], events := e.events + [RunSucceeded(attempt.number)]);
        out := FinalizeEvaluationJob(Put(s, r, e), r);
      case FailureReport(code) =>
        out := FailAttempt(s, r, slot, now, code);
    }
    done := true;
    if out.Ok? && s.entries[r].attempts[slot].number >= 1 {
      AcceptedReportHolds(s, r, slot, worker, now, report);
    }
  }

  lemma AcceptedReportHolds(s: State, r: nat, slot: nat, worker: Ident, now: Time, report: Report)
    requires r < |s.entries| && CompletedRows(s.entries[r], slot, worker, now, report).Some?
    requires LacksRecord(s.entries[r]) ==> !Terminal(CompletedRows(s.entries[r], slot, worker, now, report).value.run.status)
    ensures var s' := CompleteTx(s, r, slot, worker, now, report).0;
            r < |s'.entries| && HoldsReport(s.entries[r], s'.entries[r], slot, now, report)
  {
    var e' := CompletedRows(s.entries[r], slot, worker, now, report).value;
    assert HoldsReport(s.entries[r], e', slot, now, report);
    if !LacksRecord(e') {
      WriteRowsTouches(s, r, e');
    }
  }

  // ---------------------------------------------------------------------------------------
  // Batches
  // ---------------------------------------------------------------------------------------

  /** The rows of the recovery query that no other session has locked, by lease expiry. */
  function StaleLeases(entries: seq<Entry>, now: Time, locked: set<nat>): seq<Option<Time>> {
    seq(|entries|, i requires 0 <= i < |entries| =>
      if LeaseIsStale(entries[i], now) && i !in locked then entries[i].run.leaseExpires else None)
  }

  /** The rows of the scheduling query that no other session has locked, by due time. */
  function DueRetries(entries: seq<Entry>, now: Time, locked: set<nat>): seq<Option<Time>> {
    seq(|entries|, i requires 0 <= i < |entries| =>
      if RetryIsDue(entries[i], now) && i !in locked then entries[i].run.nextAttemptAt else None)
  }

  function RecoverSteps(runs: seq<nat>, now: Time): seq<Step> {
    seq(|runs|, i requires 0 <= i < |runs| => Recover(runs[i], now))
  }

  function ScheduleSteps(runs: seq<nat>, now: Time): seq<Step> {
    seq(|runs|, i requires 0 <= i < |runs| => Schedule(runs[i], now))
  }

  /** In a state of the machine none of a completion's or a recovery's errors can arise. */
  lemma RowsAreSound(c: Config, s: State, r: nat)
    requires Inv(c, s) && r < |s.entries|
    ensures !LacksRecord(s.entries[r])
    ensures s.entries[r].attempts != [] ==> Policy(s.entries[r]).Ok?
    ensures forall i :: 0 <= i < |s.entries[r].attempts| ==> s.entries[r].attempts[i].number == i + 1
    ensures s.entries[r].run.status.Running? ==> LatestOpen(s.entries[r].attempts).Some?
  {
    var e := s.entries[r];
    assert EntryOk(c, s.clock, e);
    forall i | 0 <= i < |e.attempts| ensures e.attempts[i].number == i + 1 {
      AttemptShape(c, s.clock, e, i);
    }
    if e.run.status.Running? {
      OpenAttemptIsLast(e.attempts);
    }
  }

  /** The loop body of the recovery; the missing open attempt and the errors cannot arise. */
  method RecoverOne(ghost c: Config, s: State, r: nat, now: Time) returns (next: State)
    requires Inv(c, s) && r < |s.entries| && LeaseIsStale(s.entries[r], now)
    ensures next == RecoverTx(s, r, now)
  {
    RowsAreSound(c, s, r);
    var slot := LatestOpenAttempt(s.entries[r].attempts);
    var out := FailAttempt(s, r, slot.value, now, LeaseExpired);
    next := out.value;
  }

  /** A completion within a state of the machine. */
  method CompleteSound(ghost c: Config, s: State, r: nat, slot: nat, worker: Ident, now: Time, report: Report)
    returns (next: State, done: bool)
    requires Inv(c, s)
    ensures (next, done) == CompleteTx(s, r, slot, worker, now, report)
  {
    if r < |s.entries| {
      RowsAreSound(c, s, r);
    }
    var out;
    out, done := CompleteRun(s, r, slot, worker, now, report);
    next := out.value;
  }

  /** What an accepted completion leaves behind. */
  lemma CompletedIsClosed(c: Config, s: State, r: nat, slot: nat, worker: Ident, now: Time, report: Report)
    requires Inv(c, s)
    ensures var (s', done) := CompleteTx(s, r, slot, worker, now, report);
            && (!done ==> s' == s)
            && (done ==> r < |s'.entries| && !s'.entries[r].run.status.Running? &&
                         slot < |s'.entries[r].attempts| && s'.entries[r].attempts[slot].finishedAt == Some(now))
  {
    if r < |s.entries| && CompletedRows(s.entries[r], slot, worker, now, report).Some? {
      var e := s.entries[r];
      var e' := CompletedRows(e, slot, worker, now, report).value;
      RowsAreSound(c, s, r);
      assert e'.accepted == e.accepted && e'.evaluation == e.evaluation && !e'.run.status.Running?;
      assert e'.attempts[slot].finishedAt == Some(now);
      WriteRowsTouches(s, r, e');
    }
  }

  // ---------------------------------------------------------------------------------------
  // The service
  // ---------------------------------------------------------------------------------------

  class ExecutionService {
    const db: Database

    constructor (database: Database)
      ensures db == database
    {
      db := database;
    }

    /**
     `claim`, on behalf of the delivered message `d`. It never fails in a state of the machine,
     and it is one Claim step with exact counts.
     */
    method Claim(r: nat, d: nat, worker: Ident, txStart: Time) returns (decision: Decision)
      requires db.Valid() && txStart <= db.state.clock
      modifies db
      ensures db.Valid()
      ensures r >= |old(db.state).entries| ==> decision == Missing && db.state == old(db.state) && db.history == old(db.history)
      ensures r < |old(db.state).entries| ==>
                var seen := ExactRunning(old(db.state), r, txStart);
                && db.history == old(db.history) + [Step.Claim(r, d, worker, seen)]
                && db.state == Execute(db.config, old(db.state), [Step.Claim(r, d, worker, seen)])
                && decision == ClaimTx(db.config, old(db.state), r, worker, seen).1
    {
      Reached(db.config, db.history);
      var out, made := ClaimRun(db.config, db.state, r, worker, txStart);
      if r >= |db.state.entries| {
        return Missing;
      }
      RowsAreSound(db.config, db.state, r);
      var next := out.value;
      if DeliveredAs(next, r, d, Undecided) {
        next := Put(next, r, SetPhase(next.entries[r], d, Decided, false));
      }
      ClaimStep(db.config, db.state, r, d, worker, txStart);
      db.Commit(next, [Step.Claim(r, d, worker, ExactRunning(db.state, r, txStart))]);
      return made;
    }

    /** `complete_success` or `complete_failure`, at an instant the caller sampled earlier. */
    method Complete(r: nat, slot: nat, worker: Ident, now: Time, report: Report) returns (done: bool)
      requires db.Valid() && now <= db.state.clock
      requires r < |db.state.entries| && slot < |db.state.entries[r].attempts| ==> db.state.entries[r].attempts[slot].claimedAt <= now
      modifies db
      ensures db.Valid() && db.history == old(db.history) + [Step.Complete(r, slot, worker, now, report)]
      ensures done == CompleteTx(old(db.state), r, slot, worker, now, report).1
      ensures done ==> r < |db.state.entries| && !db.state.entries[r].run.status.Running? &&
                       slot < |db.state.entries[r].attempts| && db.state.entries[r].attempts[slot].finishedAt == Some(now)
      ensures done ==> r < |old(db.state).entries| && StoresReport(old(db.state).entries[r], db.state.entries[r], slot, now, report)
      ensures !done ==> db.state == old(db.state)
    {
      Reached(db.config, db.history);
      var next, made := CompleteSound(db.config, db.state, r, slot, worker, now, report);
      CompletedIsClosed(db.config, db.state, r, slot, worker, now, report);
      if made {
        CompletionIsStored(db.config, db.state, r, slot, worker, now, report);
      }
      ghost var step := Step.Complete(r, slot, worker, now, report);
      One(db.config, db.state, step);
      db.Commit(next, [step]);
      return made;
    }

    /** `recover_expired_leases`: the oldest stale leases, each ended as an expired attempt. */
    method RecoverExpiredLeases(now: Time, batchSize: nat, locked: set<nat>) returns (count: nat, ghost picked: seq<nat>)
      requires db.Valid() && now <= db.state.clock
      modifies db
      ensures db.Valid() && db.history == old(db.history) + RecoverSteps(picked, now)
      ensures IsBatch(StaleLeases(old(db.state).entries, now, locked), batchSize, picked) && count == |picked|
      ensures |db.state.entries| == |old(db.state).entries|
      ensures forall i :: 0 <= i < |picked| ==> picked[i] < |db.state.entries| && !db.state.entries[picked[i]].run.status.Running?
    {
      var runs := SelectBatch(StaleLeases(db.state.entries, now, locked), batchSize);
      var next := RecoverAll(db.config, db.state, db.history, runs, now);
      db.Commit(next, RecoverSteps(runs, now));
      return |runs|, runs;
    }

    /** `schedule_due_retries`: the earliest due retries, each queued again with its outbox row. */
    method ScheduleDueRetries(now: Time, batchSize: nat, locked: set<nat>) returns (count: nat, ghost picked: seq<nat>)
      requires db.Valid() && now <= db.state.clock
      modifies db
      ensures db.Valid() && db.history == old(db.history) + ScheduleSteps(picked, now)
      ensures IsBatch(DueRetries(old(db.state).entries, now, locked), batchSize, picked) && count == |picked|
      ensures |db.state.entries| == |old(db.state).entries|
      ensures forall i :: 0 <= i < |picked| ==> picked[i] < |db.state.entries| && db.state.entries[picked[i]].run.status.Queued?
    {
      var runs := SelectBatch(DueRetries(db.state.entries, now, locked), batchSize);
      var next := ScheduleAll(db.config, db.state, runs, now);
      db.Commit(next, ScheduleSteps(runs, now));
      return |runs|, runs;
    }
  }

  ghost predicate AreStale(entries: seq<Entry>, runs: seq<nat>, now: Time) {
    && (forall i :: 0 <= i < |runs| ==> runs[i] < |entries| && LeaseIsStale(entries[runs[i]], now))
    && forall i, j :: 0 <= i < j < |runs| ==> runs[i] != runs[j]
  }

  ghost predicate AreDue(entries: seq<Entry>, runs: seq<nat>, now: Time) {
    && (forall i :: 0 <= i < |runs| ==> runs[i] < |entries| && RetryIsDue(entries[runs[i]], now))
    && forall i, j :: 0 <= i < j < |runs| ==> runs[i] != runs[j]
  }

  /** Where the recovery loop stands after its first `i` runs. */
  ghost predicate Recovering(s: State, runs: seq<nat>, now: Time, i: nat, next: State)
    requires i <= |runs|
  {
    && next.clock == s.clock && |next.entries| == |s.entries|
    && (forall k :: 0 <= k < |runs| ==> runs[k] < |s.entries|)
    && (forall k :: 0 <= k < i ==> !next.entries[runs[k]].run.status.Running?)
    && forall k :: i <= k < |runs| ==> next.entries[runs[k]].run == s.entries[runs[k]].run
  }

  lemma RecoveringStep(s: State, runs: seq<nat>, now: Time, i: nat, next: State, after: State)
    requires i < |runs| && AreStale(s.entries, runs, now) && Recovering(s, runs, now, i, next)
    requires Ended(next, after, runs[i]) && after.clock == next.clock
    ensures Recovering(s, runs, now, i + 1, after)
  {
  }

  lemma RecoverSnoc(c: Config, s: State, runs: seq<nat>, now: Time, i: nat)
    requires c.limits.windowSeconds > 0 && i < |runs|
    ensures Execute(c, s, RecoverSteps(runs[..i + 1], now)) == RecoverStep(Execute(c, s, RecoverSteps(runs[..i], now)), runs[i], now)
  {
    assert RecoverSteps(runs[..i + 1], now) == RecoverSteps(runs[..i], now) + [Recover(runs[i], now)];
    ExecuteSnoc(c, s, RecoverSteps(runs[..i], now), Recover(runs[i], now));
  }

  /** One round of the recovery loop ends its run and leaves those to come as they were. */
  lemma RecoverRound(c: Config, next: State, r: nat, now: Time)
    requires Inv(c, next) && r < |next.entries| && LeaseIsStale(next.entries[r], now) && now <= next.clock
    ensures var after := RecoverTx(next, r, now);
            && Inv(c, after) && Ended(next, after, r) && after.clock == next.clock
            && after == RecoverStep(next, r, now)
  {
    RecoverKeeps(c, next, r, now);
    RecoverEnds(c, next, r, now);
  }

  /** The recovery loop over rows that were selected once, at its start. */
  method RecoverAll(ghost c: Config, s: State, ghost history: seq<Step>, runs: seq<nat>, now: Time) returns (next: State)
    requires ValidConfig(c) && s == After(c, history) && now <= s.clock && AreStale(s.entries, runs, now)
    ensures next == Execute(c, s, RecoverSteps(runs, now))
    ensures Recovering(s, runs, now, |runs|, next)
  {
    Reached(c, history);
    next := s;
    for i := 0 to |runs|
      invariant next == Execute(c, s, RecoverSteps(runs[..i], now))
      invariant Inv(c, next) && Recovering(s, runs, now, i, next)
    {
      RecoverRound(c, next, runs[i], now);
      RecoverSnoc(c, s, runs, now, i);
      RecoveringStep(s, runs, now, i, next, RecoverTx(next, runs[i], now));
      next := RecoverOne(c, next, runs[i], now);
    }
    assert runs[..|runs|] == runs;
  }

  lemma ScheduleSnoc(c: Config, s: State, runs: seq<nat>, now: Time, i: nat)
    requires c.limits.windowSeconds > 0 && i < |runs|
    ensures var before := Execute(c, s, ScheduleSteps(runs[..i], now));
            Execute(c, s, ScheduleSteps(runs[..i + 1], now)) == if now <= before.clock then ScheduleTx(before, runs[i], now) else before
  {
    assert ScheduleSteps(runs[..i + 1], now) == ScheduleSteps(runs[..i], now) + [Schedule(runs[i], now)];
    ExecuteSnoc(c, s, ScheduleSteps(runs[..i], now), Schedule(runs[i], now));
  }

  /** Where the scheduling loop stands after its first `i` runs. */
  ghost predicate Requeueing(s: State, runs: seq<nat>, i: nat, next: State)
    requires i <= |runs|
  {
    && next.clock == s.clock && |next.entries| == |s.entries|
    && (forall k :: 0 <= k < |runs| ==> runs[k] < |s.entries|)
    && (forall k :: 0 <= k < i ==> next.entries[runs[k]].run.status.Queued?)
    && forall k :: i <= k < |runs| ==> next.entries[runs[k]] == s.entries[runs[k]]
  }

  lemma RequeueingStep(s: State, runs: seq<nat>, now: Time, i: nat, next: State, e: Entry)
    requires i < |runs| && AreDue(s.entries, runs, now) && Requeueing(s, runs, i, next) && e.run.status.Queued?
    ensures Requeueing(s, runs, i + 1, Put(next, runs[i], e))
  {
  }

  method ScheduleAll(ghost c: Config, s: State, runs: seq<nat>, now: Time) returns (next: State)
    requires ValidConfig(c) && now <= s.clock && AreDue(s.entries, runs, now)
    ensures next == Execute(c, s, ScheduleSteps(runs, now))
    ensures Requeueing(s, runs, |runs|, next)
  {
    next := s;
    for i := 0 to |runs|
      invariant next == Execute(c, s, ScheduleSteps(runs[..i], now))
      invariant Requeueing(s, runs, i, next)
    {
      var r := runs[i];
      ScheduleSnoc(c, s, runs, now, i);
      var e := next.entries[r];
      e := e.(run := e.run.(status := Queued));
      e := e.(run := e.run.(nextAttemptAt := None, queuedAt := next.clock));
      e := e.(outbox := e.outbox + [NewOutboxRow(QueueRun)]);
      e := e.(events := e.events + [RunRetryQueued]);
      RequeueingStep(s, runs, now, i, next, e);
      next := Put(next, r, e);
    }
    assert runs[..|runs|] == runs;
  }

  /** A batch large enough, with no row locked elsewhere, leaves no expired lease behind. */
  lemma LargeBatchRecoversAll(c: Config, history: seq<Step>, now: Time, batchSize: nat, picked: seq<nat>, r: nat)
    requires ValidConfig(c) && now <= After(c, history).clock
    requires IsBatch(StaleLeases(After(c, history).entries, now, {}), batchSize, picked) && |picked| < batchSize
    requires r < |After(c, history).entries|
    ensures r < |After(c, history + RecoverSteps(picked, now)).entries|
    ensures !LeaseIsStale(After(c, history + RecoverSteps(picked, now)).entries[r], now)
  {
    ExecuteConcat(c, INITIAL, history, RecoverSteps(picked, now));
    Reached(c, history);
    assert StaleLeases(After(c, history).entries, now, {})[r].Some? <==> LeaseIsStale(After(c, history).entries[r], now);
    RecoveredStay(c, After(c, history), picked, now, r);
  }

  /** Recovering a list of runs ends the stale ones on it and makes no other lease stale. */
  lemma {:induction false} RecoveredStay(c: Config, s: State, runs: seq<nat>, now: Time, r: nat)
    requires Inv(c, s) && now <= s.clock && r < |s.entries|
    ensures var s' := Execute(c, s, RecoverSteps(runs, now));
            && r < |s'.entries|
            && (!LeaseIsStale(s.entries[r], now) || r in runs ==> !LeaseIsStale(s'.entries[r], now))
    decreases |runs|
  {
    if runs != [] {
      var steps := RecoverSteps(runs, now);
      assert steps[1..] == RecoverSteps(runs[1..], now);
      var s1 := Apply(c, s, Recover(runs[0], now));
      RecoverKeeps(c, s, runs[0], now);
      if runs[0] < |s.entries| && LeaseIsStale(s.entries[runs[0]], now) {
        RecoverEnds(c, s, runs[0], now);
      }
      assert r in runs ==> r == runs[0] || r in runs[1..];
      RecoveredStay(c, s1, runs[1..], now, r);
    }
  }
}
