/**
 What a step may do to the rows of a run that already exists: the two-state half of the
 protocol's promises, and its consequences for whole executions.
 */
module Evolution {
  import opened Domain
  import opened Retry
  import opened Tables
  import opened Transitions
  import opened EntryInvariant
  import opened Protocol
  import opened ProtocolInvariant

  /** An attempt keeps who claimed it and when; once finished it never changes again. */
  ghost predicate AttemptEvolves(a: Attempt, b: Attempt) {
    && b.number == a.number && b.worker == a.worker && b.startedAt == a.startedAt && b.claimedAt == a.claimedAt
    && (a.finishedAt.Some? ==> b == a)
  }

  ghost predicate AttemptsEvolve(a: seq<Attempt>, b: seq<Attempt>) {
    |a| <= |b| && forall i :: 0 <= i < |a| ==> AttemptEvolves(a[i], b[i])
  }

  /** Outbox rows keep their purpose; once published they never change again. */
  ghost predicate OutboxEvolves(a: seq<OutboxRow>, b: seq<OutboxRow>) {
    |a| <= |b| && forall i :: 0 <= i < |a| ==> b[i].delivery == a[i].delivery && (a[i].publishedAt.Some? ==> b[i] == a[i])
  }

  /** A decided evaluation never changes again. */
  ghost predicate RecordEvolves(a: Option<Evaluation>, b: Option<Evaluation>) {
    SameRecord(a, b) && (a.Some? && !a.value.status.Pending? ==> b == a)
  }

  ghost predicate Evolves(e: Entry, e': Entry) {
    && e'.accepted == e.accepted
    && (Terminal(e.run.status) ==> e'.run == e.run && |e'.attempts| == |e.attempts|)
    && AttemptsEvolve(e.attempts, e'.attempts)
    && e.events <= e'.events
    && OutboxEvolves(e.outbox, e'.outbox)
    && RecordEvolves(e.evaluation, e'.evaluation)
  }

  lemma EvolvesTrans(a: Entry, b: Entry, d: Entry)
    requires Evolves(a, b) && Evolves(b, d)
    ensures Evolves(a, d)
  {
  }

  /** A status either stays, or moves along the table or the deferral edge. */
  predicate Edge(a: ExecutionStatus, b: ExecutionStatus) {
    a == b || AllowedTransition(a, b) || Deferral(a, b)
  }

  // ---------------------------------------------------------------------------------------
  // The status potential
  // ---------------------------------------------------------------------------------------

  /**
   How far a run has come: every change of status raises it by one, except that a capacity
   deferral lowers it by one.
   */
  function Progress(e: Entry): int {
    var n := |e.attempts|;
    match e.run.status
    case Queued => 3 * n
    case Running => 3 * n - 2
    case RetryScheduled => 3 * n - 1
    case Succeeded => 3 * n - 1
    case DeadLettered => 3 * n - 1
    case Failed => if n > 0 && !e.attempts[n - 1].retryable then 3 * n - 1 else 3 * n + 1
  }

  function Changed(e: Entry, e': Entry): int { if e.run.status == e'.run.status then 0 else 1 }

  function WasDeferred(e: Entry, e': Entry): int { if Deferral(e.run.status, e'.run.status) then 1 else 0 }

  /** One step of one run. */
  ghost predicate Moves(e: Entry, e': Entry) {
    && Evolves(e, e')
    && Edge(e.run.status, e'.run.status)
    && Changed(e, e') == Progress(e') - Progress(e) + 2 * WasDeferred(e, e')
  }

  lemma Unmoved(e: Entry, e': Entry)
    requires e'.accepted == e.accepted && e'.run == e.run && e'.attempts == e.attempts
    requires e.events <= e'.events && OutboxEvolves(e.outbox, e'.outbox) && RecordEvolves(e.evaluation, e'.evaluation)
    ensures Moves(e, e')
  {
  }

  lemma DeferredMoves(e: Entry, now: Time)
    requires e.run.status.Queued?
    ensures Moves(e, Deferred(e, now))
  {
  }

  lemma PolicyRejectedMoves(c: Config, clock: Time, e: Entry, now: Time)
    requires RowsInv(c, clock, e) && e.run.status.Queued?
    ensures Moves(e, PolicyRejected(e, now))
  {
  }

  lemma LeasedMoves(c: Config, e: Entry, p: RetryPolicy, number: int, worker: Ident, now: Time, txStart: Time)
    requires Valid(p) && number >= 1 && e.run.status.Queued?
    ensures Moves(e, Leased(c, e, p, number, worker, now, txStart))
  {
  }

  lemma ClaimMoves(c: Config, clock: Time, e: Entry, worker: Ident, seen: Observed)
    requires RowsInv(c, clock, e)
    ensures Moves(e, ClaimRows(c, e, worker, seen).0)
  {
    if !e.run.status.Queued? {
      Unmoved(e, e);
    } else if CapacityFull(c, seen) {
      DeferredMoves(e, seen.now);
    } else {
      PolicyRejectedMoves(c, clock, e, seen.now);
      var number := MaxNumber(e.attempts) + 1;
      if Policy(e).Ok? && number >= 1 {
        LeasedMoves(c, e, Policy(e).value, number, worker, seen.now, seen.txStart);
      }
    }
  }

  lemma SucceededMoves(c: Config, clock: Time, e: Entry, now: Time, payload: Payload, provider: string)
    requires EntryOk(c, clock, e) && e.run.status.Running?
    ensures Moves(e, SucceededRows(e, |e.attempts| - 1, now, payload, provider))
  {
  }

  lemma FailedMoves(c: Config, clock: Time, e: Entry, now: Time, code: ErrorCode)
    requires EntryOk(c, clock, e) && e.run.status.Running?
    ensures Moves(e, FailedRows(e, Policy(e).value, |e.attempts| - 1, now, code))
  {
    FailedEvolves(e, Policy(e).value, now, code);
  }

  lemma FailedEvolves(e: Entry, p: RetryPolicy, now: Time, code: ErrorCode)
    requires e.run.status.Running? && e.attempts != [] && OpenLast(e.attempts[|e.attempts| - 1])
    requires e.attempts[|e.attempts| - 1].number >= 1
    ensures Evolves(e, FailedRows(e, p, |e.attempts| - 1, now, code))
  {
  }

  // ---------------------------------------------------------------------------------------
  // Every step moves every run
  // ---------------------------------------------------------------------------------------

  ghost predicate AllMove(entries: seq<Entry>, entries': seq<Entry>) {
    |entries| <= |entries'| && forall r :: 0 <= r < |entries| ==> Moves(entries[r], entries'[r])
  }

  lemma NoneMoved(entries: seq<Entry>)
    ensures AllMove(entries, entries)
  {
  }

  lemma PutMoves(entries: seq<Entry>, r: nat, e: Entry)
    requires r < |entries| && Moves(entries[r], e)
    ensures AllMove(entries, entries[r := e])
  {
  }

  lemma TellMoves(entries: seq<Entry>, k: nat, told: Entry, e: Entry)
    requires k < |entries|
    requires told.accepted == entries[k].accepted && told.run == entries[k].run && told.attempts == entries[k].attempts
    requires entries[k].events <= told.events && told.outbox == entries[k].outbox && told.evaluation == entries[k].evaluation
    ensures AllMove(entries, entries[k := told] + [e])
  {
  }

  lemma WriteRowsMoves(c: Config, s: State, r: nat, e: Entry)
    requires Inv(c, s) && r < |s.entries| && Moves(s.entries[r], e) && e.evaluation == s.entries[r].evaluation
    ensures AllMove(s.entries, WriteRows(s, r, e).entries)
  {
    if !Terminal(e.run.status) || Terminal(s.entries[r].run.status) || !e.accepted.kind.EvaluationWork? {
      PutMoves(s.entries, r, e);
    } else if e.evaluation.None? {
      NoneMoved(s.entries);
    } else {
      assert EntryOk(c, s.clock, s.entries[r]) && SourceOk(s.entries, s.entries[r]);
      FinalizeMoves(s, r, e);
    }
  }

  lemma FinalizeMoves(s: State, r: nat, e: Entry)
    requires r < |s.entries| && Moves(s.entries[r], e) && e.evaluation == s.entries[r].evaluation
    requires e.evaluation.Some? && e.evaluation.value.status.Pending?
    requires e.evaluation.value.source < |s.entries| && e.evaluation.value.source != r
    ensures AllMove(s.entries, FinalizeEvaluation(Put(s, r, e), r).entries)
  {
    var closed := ClosedEvaluation(e);
    var source := e.evaluation.value.source;
    var entries := s.entries[r := closed];
    assert s.entries[r := e][r := closed] == entries;
    assert Moves(s.entries[r], closed);
    PutMoves(s.entries, r, closed);
    var told := MirroredSource(entries[source], r, closed.evaluation.value.status, IsLatest(entries, r));
    Unmoved(s.entries[source], told);
    PutAlsoMoves(s.entries, entries, source, told);
  }

  lemma PutAlsoMoves(a: seq<Entry>, b: seq<Entry>, k: nat, e: Entry)
    requires AllMove(a, b) && k < |a| && Moves(a[k], e)
    ensures AllMove(a, b[k := e])
  {
  }

  lemma SubmitMoves(c: Config, s: State, q: Submission, seen: Observed)
    requires c.limits.windowSeconds > 0
    ensures AllMove(s.entries, SubmitStep(c, s, q, seen).entries)
  {
  }

  lemma ReplayMoves(c: Config, s: State, q: ReplayRequest, seen: Observed)
    requires c.limits.windowSeconds > 0
    ensures AllMove(s.entries, ReplayStep(c, s, q, seen).entries)
  {
    var s' := ReplayStep(c, s, q, seen);
    if s' == s {
      NoneMoved(s.entries);
    } else {
      var source := s.entries[q.source];
      TellMoves(s.entries, q.source, source.(events := source.events + [ReplayCreated(|s.entries|)]), s'.entries[|s.entries|]);
    }
  }

  lemma EvaluateMoves(c: Config, s: State, q: EvaluateRequest, seen: Observed)
    requires c.limits.windowSeconds > 0
    ensures AllMove(s.entries, EvaluateStep(c, s, q, seen).entries)
  {
    var s' := EvaluateStep(c, s, q, seen);
    if s' == s {
      NoneMoved(s.entries);
    } else {
      TellMoves(s.entries, q.source, MirroredSource(s.entries[q.source], |s.entries|, Pending, true), s'.entries[|s.entries|]);
    }
  }

  lemma ClaimTxMoves(c: Config, s: State, r: nat, worker: Ident, seen: Observed)
    requires Inv(c, s) && r < |s.entries|
    ensures AllMove(s.entries, ClaimTx(c, s, r, worker, seen).0.entries)
  {
    var e := s.entries[r];
    assert EntryOk(c, s.clock, e);
    ClaimMoves(c, s.clock, e, worker, seen);
    WriteRowsMoves(c, s, r, ClaimRows(c, e, worker, seen).0);
  }

  lemma ClaimDeliveryMoves(c: Config, s: State, r: nat, d: nat, worker: Ident, seen: Observed)
    requires Inv(c, s)
    ensures AllMove(s.entries, ClaimDelivery(c, s, r, d, worker, seen).entries)
  {
    if ClaimDelivery(c, s, r, d, worker, seen) == s {
      NoneMoved(s.entries);
    } else {
      ClaimTxMoves(c, s, r, worker, seen);
      ClaimDecides(c, s, r, worker, seen);
      var s1 := ClaimTx(c, s, r, worker, seen).0;
      if DeliveredAs(s1, r, d, Undecided) {
        PhaseMoves(s.entries, s1.entries, r, SetPhase(s1.entries[r], d, Decided, false));
      }
    }
  }

  /** Where a delivery stands does not concern the run's history. */
  lemma PhaseMoves(entries: seq<Entry>, entries': seq<Entry>, r: nat, e: Entry)
    requires AllMove(entries, entries') && r < |entries|
    requires e == entries'[r].(deliveries := e.deliveries, queued := e.queued)
    ensures AllMove(entries, entries'[r := e])
  {
  }

  lemma PublishMoves(s: State, r: nat, row: nat, p: Publication)
    ensures AllMove(s.entries, PublishTx(s, r, row, p).entries)
  {
    if PublishTx(s, r, row, p) == s {
      NoneMoved(s.entries);
    } else {
      Unmoved(s.entries[r], PublishedRows(s.entries[r], row, s.clock, p));
      PutMoves(s.entries, r, PublishedRows(s.entries[r], row, s.clock, p));
    }
  }

  lemma DeliverMoves(s: State, r: nat)
    ensures AllMove(s.entries, DeliverTx(s, r).entries)
  {
    NoneMoved(s.entries);
    if DeliverTx(s, r) != s {
      PhaseMoves(s.entries, s.entries, r, DeliverTx(s, r).entries[r]);
    }
  }

  lemma SettleMoves(s: State, r: nat, d: nat, requeue: bool)
    ensures AllMove(s.entries, SettleTx(s, r, d, requeue).entries)
  {
    NoneMoved(s.entries);
    if DeliveredAs(s, r, d, Decided) {
      PhaseMoves(s.entries, s.entries, r, SetPhase(s.entries[r], d, Closed, requeue));
    }
  }

  lemma CrashMoves(s: State, r: nat, d: nat)
    ensures AllMove(s.entries, CrashTx(s, r, d).entries)
  {
    NoneMoved(s.entries);
    if DeliveredAs(s, r, d, Undecided) || DeliveredAs(s, r, d, Decided) {
      PhaseMoves(s.entries, s.entries, r, SetPhase(s.entries[r], d, Closed, true));
    }
  }

  lemma CompletedRowsMove(c: Config, clock: Time, e: Entry, slot: nat, worker: Ident, now: Time, report: Report)
    requires EntryOk(c, clock, e) && CompletedRows(e, slot, worker, now, report).Some?
    ensures var e' := CompletedRows(e, slot, worker, now, report).value;
            Moves(e, e') && e'.evaluation == e.evaluation
  {
    FenceIsLast(c, clock, e, slot, worker, now);
    if report.SuccessReport? {
      SucceededMoves(c, clock, e, now, report.payload, report.provider);
    } else {
      FailedMoves(c, clock, e, now, report.code);
    }
  }

  lemma CompleteMoves(c: Config, s: State, r: nat, slot: nat, worker: Ident, now: Time, report: Report)
    requires Inv(c, s)
    ensures AllMove(s.entries, CompleteStep(s, r, slot, worker, now, report).entries)
  {
    NoneMoved(s.entries);
    if r < |s.entries| && CompletedRows(s.entries[r], slot, worker, now, report).Some? {
      CompletedRowsMove(c, s.clock, s.entries[r], slot, worker, now, report);
      WriteRowsMoves(c, s, r, CompletedRows(s.entries[r], slot, worker, now, report).value);
    }
  }

  lemma RecoveredRowsMove(c: Config, clock: Time, e: Entry, now: Time)
    requires EntryOk(c, clock, e) && RecoveredRows(e, now).Some?
    ensures Moves(e, RecoveredRows(e, now).value) && RecoveredRows(e, now).value.evaluation == e.evaluation
  {
    OpenAttemptIsLast(e.attempts);
    FailedMoves(c, clock, e, now, LeaseExpired);
  }

  lemma RecoverMoves(c: Config, s: State, r: nat, now: Time)
    requires Inv(c, s)
    ensures AllMove(s.entries, RecoverStep(s, r, now).entries)
  {
    NoneMoved(s.entries);
    if r < |s.entries| && RecoveredRows(s.entries[r], now).Some? {
      RecoveredRowsMove(c, s.clock, s.entries[r], now);
      WriteRowsMoves(c, s, r, RecoveredRows(s.entries[r], now).value);
    }
  }

  lemma ScheduleMoves(s: State, r: nat, now: Time)
    ensures AllMove(s.entries, ScheduleStep(s, r, now).entries)
  {
    NoneMoved(s.entries);
    if r < |s.entries| && RetryIsDue(s.entries[r], now) {
      PutMoves(s.entries, r, RequeuedRows(s.entries[r], s.clock));
    }
  }

  /** Neither does what its executor is doing. */
  lemma ExecutorMoved(entries: seq<Entry>, r: nat, slot: nat, x: Spending)
    requires r < |entries| && slot < |entries[r].spending|
    ensures AllMove(entries, entries[r := WithExecutor(entries[r], slot, x)])
  {
    Unmoved(entries[r], WithExecutor(entries[r], slot, x));
    PutMoves(entries, r, WithExecutor(entries[r], slot, x));
  }

  lemma SpendMoves(c: Config, s: State, r: nat, slot: nat, action: Action)
    requires c.limits.windowSeconds > 0
    ensures AllMove(s.entries, SpendStep(c, s, r, slot, action).entries)
  {
    NoneMoved(s.entries);
    if r < |s.entries| && slot < |s.entries[r].spending| {
      var x := s.entries[r].spending[slot];
      ExecutorMoved(s.entries, r, slot, x.(charges := x.charges + 1, activity := Paid));
      ExecutorMoved(s.entries, r, slot, Moved(c, s.entries[r].accepted, x, action));
    }
  }

  lemma StepMoves(c: Config, s: State, step: Step)
    requires Inv(c, s)
    ensures AllMove(s.entries, Apply(c, s, step).entries)
  {
    match step {
      case Tick(_) => NoneMoved(s.entries);
      case Submit(q, seen) => SubmitMoves(c, s, q, seen);
      case Replay(q, seen) => ReplayMoves(c, s, q, seen);
      case Evaluate(q, seen) => EvaluateMoves(c, s, q, seen);
      case Publish(r, row, p) => PublishMoves(s, r, row, p);
      case Deliver(r) => DeliverMoves(s, r);
      case Claim(r, d, worker, seen) => ClaimDeliveryMoves(c, s, r, d, worker, seen);
      case Settle(r, d, requeue) => SettleMoves(s, r, d, requeue);
      case Crash(r, d) => CrashMoves(s, r, d);
      case Complete(r, slot, worker, now, report) => CompleteMoves(c, s, r, slot, worker, now, report);
      case Recover(r, now) => RecoverMoves(c, s, r, now);
      case Schedule(r, now) => ScheduleMoves(s, r, now);
      case Spend(r, slot, action) => SpendMoves(c, s, r, slot, action);
    }
  }

  // ---------------------------------------------------------------------------------------
  // Whole executions
  // ---------------------------------------------------------------------------------------

  /** Over any continuation a run's rows only evolve: history is append-only, outcomes are final. */
  lemma {:induction false} ExecuteEvolves(c: Config, s: State, steps: seq<Step>, r: nat)
    requires Inv(c, s) && r < |s.entries|
    ensures r < |Execute(c, s, steps).entries| && Evolves(s.entries[r], Execute(c, s, steps).entries[r])
    decreases |steps|
  {
    if steps == [] {
      Unmoved(s.entries[r], s.entries[r]);
    } else {
      var s1 := Apply(c, s, steps[0]);
      StepMoves(c, s, steps[0]);
      StepKeeps(c, s, steps[0]);
      ExecuteEvolves(c, s1, steps[1..], r);
      EvolvesTrans(s.entries[r], s1.entries[r], Execute(c, s1, steps[1..]).entries[r]);
    }
  }

  /** How often run `r` changes status along the steps. */
  ghost function StatusChanges(c: Config, s: State, steps: seq<Step>, r: nat): int
    requires Inv(c, s) && r < |s.entries|
    decreases |steps|
  {
    if steps == [] then 0 else
    StepKeeps(c, s, steps[0]);
    StepMoves(c, s, steps[0]);
    var s1 := Apply(c, s, steps[0]);
    Changed(s.entries[r], s1.entries[r]) + StatusChanges(c, s1, steps[1..], r)
  }

  ghost function Deferrals(c: Config, s: State, steps: seq<Step>, r: nat): int
    requires Inv(c, s) && r < |s.entries|
    decreases |steps|
  {
    if steps == [] then 0 else
    StepKeeps(c, s, steps[0]);
    StepMoves(c, s, steps[0]);
    var s1 := Apply(c, s, steps[0]);
    WasDeferred(s.entries[r], s1.entries[r]) + Deferrals(c, s1, steps[1..], r)
  }

  /** Status changes are conserved: they are the progress made plus two for every deferral. */
  lemma {:induction false} ChangesAreProgress(c: Config, s: State, steps: seq<Step>, r: nat)
    requires Inv(c, s) && r < |s.entries|
    ensures r < |Execute(c, s, steps).entries|
    ensures StatusChanges(c, s, steps, r)
         == Progress(Execute(c, s, steps).entries[r]) - Progress(s.entries[r]) + 2 * Deferrals(c, s, steps, r)
    decreases |steps|
  {
    if steps != [] {
      StepKeeps(c, s, steps[0]);
      StepMoves(c, s, steps[0]);
      ChangesAreProgress(c, Apply(c, s, steps[0]), steps[1..], r);
    }
  }
}
