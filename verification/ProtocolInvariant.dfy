/** The invariant of the whole database, and the proof that every step of the machine keeps it. */
module ProtocolInvariant {
  import opened Domain
  import opened Retry
  import opened Tables
  import opened Transitions
  import opened EntryInvariant
  import opened Protocol
  import Quota

  ghost predicate EntryOk(c: Config, clock: Time, e: Entry) {
    RowsInv(c, clock, e) && EvaluationInv(e.accepted.kind, e.run, e.evaluation)
  }

  ghost predicate EntriesOk(c: Config, clock: Time, entries: seq<Entry>) {
    forall r :: 0 <= r < |entries| ==> EntryOk(c, clock, entries[r])
  }

  /** An evaluation job's source is a successful execution run of the same client. */
  ghost predicate SourceOk(entries: seq<Entry>, e: Entry) {
    e.evaluation.Some? ==>
      var source := e.evaluation.value.source;
      && source < |entries|
      && entries[source].accepted.client == e.accepted.client
      && entries[source].accepted.kind.ExecutionWork?
      && entries[source].run.status.Succeeded?
  }

  ghost predicate SourcesOk(entries: seq<Entry>) {
    forall r :: 0 <= r < |entries| ==> SourceOk(entries, entries[r])
  }

  ghost predicate CapOk(c: Config, entries: seq<Entry>, scope: Quota.Scope) {
    RunningIn(entries, scope) <= RunningLimit(c, scope) && ActiveIn(entries, scope) <= ActiveLimit(c, scope)
  }

  ghost predicate CapsOk(c: Config, entries: seq<Entry>) {
    forall scope :: CapOk(c, entries, scope)
  }

  predicate SameKey(a: Accepted, b: Accepted) {
    a.client == b.client && a.key == b.key
  }

  /** At most one run per client and idempotency key. */
  ghost predicate KeysOk(entries: seq<Entry>) {
    forall i, j :: 0 <= i < j < |entries| ==> !SameKey(entries[i].accepted, entries[j].accepted)
  }

  predicate SameEvaluationId(a: Option<Evaluation>, b: Option<Evaluation>) {
    a.Some? && b.Some? && a.value.id == b.value.id
  }

  ghost predicate IdsOk(entries: seq<Entry>) {
    forall i, j :: 0 <= i < j < |entries| ==> !SameEvaluationId(entries[i].evaluation, entries[j].evaluation)
  }

  function ChargesAt(e: Entry, slot: nat): nat {
    if slot < |e.spending| then e.spending[slot].charges else 0
  }

  function ChargesOf(entries: seq<Entry>, r: nat, slot: nat): nat {
    if r < |entries| then ChargesAt(entries[r], slot) else 0
  }

  /** What each attempt has paid is exactly what the quota ledger has booked for it. */
  ghost predicate PaidOk(log: seq<Quota.Charge>, entries: seq<Entry>) {
    forall r: nat, slot: nat :: Quota.ByAttempt(log, r, slot) == ChargesOf(entries, r, slot)
  }

  ghost predicate Inv(c: Config, s: State) {
    && ValidConfig(c)
    && s.clock >= 0.0
    && EntriesOk(c, s.clock, s.entries)
    && SourcesOk(s.entries)
    && CapsOk(c, s.entries)
    && KeysOk(s.entries)
    && IdsOk(s.entries)
    && Quota.Inv(c.limits, s.ledger, Epoch(s))
    && PaidOk(s.ledger.log, s.entries)
  }

  lemma InitialInv(c: Config)
    requires ValidConfig(c)
    ensures Inv(c, INITIAL)
  {
  }

  // ---------------------------------------------------------------------------------------
  // Changing one entry
  // ---------------------------------------------------------------------------------------

  predicate SameRecord(a: Option<Evaluation>, b: Option<Evaluation>) {
    match (a, b)
    case (Some(x), Some(y)) => x.source == y.source && x.id == y.id && x.createdAt == y.createdAt
    case (None, None) => true
    case _ => false
  }

  /** A change of one run that neither adds work nor touches what other rows rely on. */
  ghost predicate Calm(e: Entry, e': Entry) {
    && e'.accepted == e.accepted
    && SameRecord(e.evaluation, e'.evaluation)
    && (Active(e'.run.status) ==> Active(e.run.status))
    && (e.run.status.Succeeded? ==> e'.run.status.Succeeded?)
    && forall slot: nat :: ChargesAt(e', slot) == ChargesAt(e, slot)
  }

  ghost predicate RoomFor(c: Config, entries: seq<Entry>, a: Accepted) {
    && RunningIn(entries, Quota.PrincipalScope(a.principal)) < c.principalRunning
    && RunningIn(entries, Quota.TenantScope(a.client)) < c.tenantRunning
  }

  lemma PutCaps(c: Config, entries: seq<Entry>, r: nat, e: Entry)
    requires CapsOk(c, entries) && r < |entries| && Calm(entries[r], e)
    requires e.run.status.Running? && !entries[r].run.status.Running? ==> RoomFor(c, entries, e.accepted)
    ensures CapsOk(c, entries[r := e])
  {
    var entries' := entries[r := e];
    forall scope ensures CapOk(c, entries', scope) {
      assert CapOk(c, entries, scope);
      RunningAfterPut(entries, r, e, scope);
      ActiveAfterPut(entries, r, e, scope);
    }
  }

  lemma PutSources(entries: seq<Entry>, r: nat, e: Entry)
    requires SourcesOk(entries) && r < |entries| && Calm(entries[r], e)
    ensures SourcesOk(entries[r := e])
  {
  }

  lemma PutKeysAndIds(entries: seq<Entry>, r: nat, e: Entry)
    requires KeysOk(entries) && IdsOk(entries) && r < |entries| && Calm(entries[r], e)
    ensures KeysOk(entries[r := e]) && IdsOk(entries[r := e])
  {
  }

  lemma PutPaid(log: seq<Quota.Charge>, entries: seq<Entry>, r: nat, e: Entry)
    requires PaidOk(log, entries) && r < |entries| && Calm(entries[r], e)
    ensures PaidOk(log, entries[r := e])
  {
  }

  lemma PutKeeps(c: Config, s: State, r: nat, e: Entry)
    requires Inv(c, s) && r < |s.entries| && Calm(s.entries[r], e) && EntryOk(c, s.clock, e)
    requires e.run.status.Running? && !s.entries[r].run.status.Running? ==> RoomFor(c, s.entries, e.accepted)
    ensures Inv(c, Put(s, r, e))
  {
    PutCaps(c, s.entries, r, e);
    PutSources(s.entries, r, e);
    PutKeysAndIds(s.entries, r, e);
    PutPaid(s.ledger.log, s.entries, r, e);
  }

  // ---------------------------------------------------------------------------------------
  // Adding one entry
  // ---------------------------------------------------------------------------------------

  lemma AppendKeeps(c: Config, s: State, e: Entry)
    requires Inv(c, s) && EntryOk(c, s.clock, e) && SourceOk(s.entries, e)
    requires e.run.status.Queued? && e.spending == []
    requires FindByKey(s.entries, e.accepted.client, e.accepted.key).None?
    requires e.evaluation.Some? ==> !EvaluationIdTaken(s.entries, e.evaluation.value.id)
    requires ActiveIn(s.entries, Quota.PrincipalScope(e.accepted.principal)) < c.principalActive
    requires ActiveIn(s.entries, Quota.TenantScope(e.accepted.client)) < c.tenantActive
    ensures Inv(c, s.(entries := s.entries + [e]))
  {
    var entries' := s.entries + [e];
    forall k | 0 <= k < |entries'| ensures SourceOk(entries', entries'[k]) {
      if k < |s.entries| {
        assert SourceOk(s.entries, s.entries[k]);
      }
    }
    forall scope ensures CapOk(c, entries', scope) {
      assert CapOk(c, s.entries, scope);
      CountsAfterAppend(s.entries, e, scope);
    }
    forall i, j | 0 <= i < j < |entries'|
      ensures !SameKey(entries'[i].accepted, entries'[j].accepted)
      ensures !SameEvaluationId(entries'[i].evaluation, entries'[j].evaluation)
    {
      if j < |s.entries| {
        assert !SameKey(s.entries[i].accepted, s.entries[j].accepted);
        assert !SameEvaluationId(s.entries[i].evaluation, s.entries[j].evaluation);
      }
    }
    AppendPaid(s.ledger.log, s.entries, e);
  }

  lemma AppendPaid(log: seq<Quota.Charge>, entries: seq<Entry>, e: Entry)
    requires PaidOk(log, entries) && e.spending == []
    ensures PaidOk(log, entries + [e])
  {
  }

  // ---------------------------------------------------------------------------------------
  // Writing a run's rows, evaluation included
  // ---------------------------------------------------------------------------------------

  /** Telling the source about an evaluation changes nothing that the invariant is about. */
  lemma MirroredKeeps(c: Config, clock: Time, e: Entry, job: nat, status: EvaluationStatus, latest: bool)
    requires EntryOk(c, clock, e)
    ensures EntryOk(c, clock, MirroredSource(e, job, status, latest))
    ensures Calm(e, MirroredSource(e, job, status, latest))
  {
    LedgerIgnores(e.run.status.DeadLettered?, |e.attempts|, e.events, EvaluationChanged(job, status), e.outbox);
  }

  lemma FinalizeKeeps(c: Config, s: State, r: nat, e: Entry)
    requires Inv(c, s) && r < |s.entries| && Calm(s.entries[r], e) && RowsInv(c, s.clock, e)
    requires Terminal(e.run.status) && !Terminal(s.entries[r].run.status)
    requires e.accepted.kind.EvaluationWork? && e.evaluation.Some? && e.evaluation.value.result.None?
    ensures Inv(c, FinalizeEvaluation(Put(s, r, e), r))
  {
    var closed := Put(s, r, ClosedEvaluation(e));
    assert Put(Put(s, r, e), r, ClosedEvaluation(e)) == closed;
    PutKeeps(c, s, r, ClosedEvaluation(e));
    var v := closed.entries[r].evaluation.value;
    assert SourceOk(closed.entries, closed.entries[r]);
    MirroredKeeps(c, s.clock, closed.entries[v.source], r, v.status, IsLatest(closed.entries, r));
    PutKeeps(c, closed, v.source,
             MirroredSource(closed.entries[v.source], r, v.status, IsLatest(closed.entries, r)));
  }

  lemma WriteRowsKeeps(c: Config, s: State, r: nat, e: Entry)
    requires Inv(c, s) && r < |s.entries| && Calm(s.entries[r], e) && RowsInv(c, s.clock, e)
    requires e.evaluation == s.entries[r].evaluation
    requires Terminal(s.entries[r].run.status) ==> e.run == s.entries[r].run
    requires e.run.status.Running? && !s.entries[r].run.status.Running? ==> RoomFor(c, s.entries, e.accepted)
    ensures Inv(c, WriteRows(s, r, e))
  {
    assert EntryOk(c, s.clock, s.entries[r]);
    if !Terminal(e.run.status) || Terminal(s.entries[r].run.status) || !e.accepted.kind.EvaluationWork? {
      PutKeeps(c, s, r, e);
    } else {
      FinalizeKeeps(c, s, r, e);
    }
  }

  // ---------------------------------------------------------------------------------------
  // The steps
  // ---------------------------------------------------------------------------------------

  lemma TickKeeps(c: Config, s: State, delta: Time)
    requires Inv(c, s)
    ensures Inv(c, TickStep(s, delta))
  {
    if delta >= 0.0 {
      forall r | 0 <= r < |s.entries| ensures EntryOk(c, s.clock + delta, s.entries[r]) {
        LaterKeeps(c, s.clock, s.clock + delta, s.entries[r]);
      }
      assert Epoch(s) <= (s.clock + delta).Floor;
    }
  }

  lemma SubmitKeeps(c: Config, s: State, q: Submission, seen: Observed)
    requires Inv(c, s)
    ensures Inv(c, SubmitStep(c, s, q, seen))
  {
    if SubmitStep(c, s, q, seen) != s {
      NewEntryKeeps(c, s.clock, AcceptedSubmission(q), RunQueued, None);
      AppendKeeps(c, s, NewEntry(AcceptedSubmission(q), RunQueued, None, s.clock));
    }
  }

  lemma ActiveUnchanged(entries: seq<Entry>, r: nat, e: Entry, scope: Quota.Scope)
    requires r < |entries| && e.accepted == entries[r].accepted && e.run == entries[r].run
    ensures ActiveIn(entries[r := e], scope) == ActiveIn(entries, scope)
  {
    ActiveAfterPut(entries, r, e, scope);
  }

  /** Noting a new run in another run's history and adding it, as replays and evaluations do. */
  lemma TellAndAppendKeeps(c: Config, s: State, k: nat, told: Entry, e: Entry)
    requires Inv(c, s) && k < |s.entries|
    requires EntryOk(c, s.clock, told)
    requires told.accepted == s.entries[k].accepted && told.run == s.entries[k].run
    requires told.evaluation == s.entries[k].evaluation && told.spending == s.entries[k].spending
    requires EntryOk(c, s.clock, e) && SourceOk(s.entries, e) && e.run.status.Queued? && e.spending == []
    requires FindByKey(s.entries, e.accepted.client, e.accepted.key).None?
    requires e.evaluation.Some? ==> !EvaluationIdTaken(s.entries, e.evaluation.value.id)
    requires ActiveIn(s.entries, Quota.PrincipalScope(e.accepted.principal)) < c.principalActive
    requires ActiveIn(s.entries, Quota.TenantScope(e.accepted.client)) < c.tenantActive
    ensures Inv(c, s.(entries := s.entries[k := told] + [e]))
  {
    PutKeeps(c, s, k, told);
    ActiveUnchanged(s.entries, k, told, Quota.PrincipalScope(e.accepted.principal));
    ActiveUnchanged(s.entries, k, told, Quota.TenantScope(e.accepted.client));
    StillFree(s.entries, k, told, e);
    AppendKeeps(c, Put(s, k, told), e);
  }

  lemma StillFree(entries: seq<Entry>, k: nat, told: Entry, e: Entry)
    requires k < |entries| && told.accepted == entries[k].accepted && told.evaluation == entries[k].evaluation
    requires FindByKey(entries, e.accepted.client, e.accepted.key).None?
    ensures FindByKey(entries[k := told], e.accepted.client, e.accepted.key).None?
    ensures e.evaluation.Some? && !EvaluationIdTaken(entries, e.evaluation.value.id) ==>
              !EvaluationIdTaken(entries[k := told], e.evaluation.value.id)
    ensures SourceOk(entries, e) && told.run == entries[k].run ==> SourceOk(entries[k := told], e)
  {
  }

  lemma ReplayEntries(c: Config, s: State, q: ReplayRequest)
    requires Inv(c, s) && q.source < |s.entries|
    ensures var source := s.entries[q.source];
            EntryOk(c, s.clock, source.(events := source.events + [ReplayCreated(|s.entries|)]))
    ensures EntryOk(c, s.clock, NewEntry(AcceptedReplay(s, q), RunReplayQueued(q.source), None, s.clock))
  {
    var source := s.entries[q.source];
    assert EntryOk(c, s.clock, source);
    LedgerIgnores(source.run.status.DeadLettered?, |source.attempts|, source.events, ReplayCreated(|s.entries|), source.outbox);
    NewEntryKeeps(c, s.clock, AcceptedReplay(s, q), RunReplayQueued(q.source), None);
  }

  lemma ReplayKeeps(c: Config, s: State, q: ReplayRequest, seen: Observed)
    requires Inv(c, s)
    ensures Inv(c, ReplayStep(c, s, q, seen))
  {
    if ReplayStep(c, s, q, seen) != s {
      var id, source, a := |s.entries|, s.entries[q.source], AcceptedReplay(s, q);
      ReplayEntries(c, s, q);
      TellAndAppendKeeps(c, s, q.source, source.(events := source.events + [ReplayCreated(id)]),
                         NewEntry(a, RunReplayQueued(q.source), None, s.clock));
    }
  }

  lemma JobEntry(c: Config, s: State, q: EvaluateRequest)
    requires Inv(c, s) && VisibleTo(s, q.source, q.client) && Evaluable(s.entries[q.source])
    ensures var e := NewEntry(AcceptedJob(c, q), RunQueued, Some(Evaluation(q.source, q.id, q.stamp, Pending, None, None)), s.clock);
            EntryOk(c, s.clock, e) && SourceOk(s.entries, e)
    ensures EntryOk(c, s.clock, MirroredSource(s.entries[q.source], |s.entries|, Pending, true))
  {
    assert EntryOk(c, s.clock, s.entries[q.source]);
    MirroredKeeps(c, s.clock, s.entries[q.source], |s.entries|, Pending, true);
    NewEntryKeeps(c, s.clock, AcceptedJob(c, q), RunQueued, Some(Evaluation(q.source, q.id, q.stamp, Pending, None, None)));
  }

  lemma EvaluateKeeps(c: Config, s: State, q: EvaluateRequest, seen: Observed)
    requires Inv(c, s)
    ensures Inv(c, EvaluateStep(c, s, q, seen))
  {
    if EvaluateStep(c, s, q, seen) != s {
      JobEntry(c, s, q);
      TellAndAppendKeeps(c, s, q.source, MirroredSource(s.entries[q.source], |s.entries|, Pending, true),
                         NewEntry(AcceptedJob(c, q), RunQueued, Some(Evaluation(q.source, q.id, q.stamp, Pending, None, None)), s.clock));
    }
  }

  lemma PublishKeeps(c: Config, s: State, r: nat, row: nat, p: Publication)
    requires Inv(c, s)
    ensures Inv(c, PublishTx(s, r, row, p))
  {
    if r < |s.entries| && row < |s.entries[r].outbox| && s.entries[r].outbox[row].publishedAt.None? {
      var e' := PublishedRows(s.entries[r], row, s.clock, p);
      assert EntryOk(c, s.clock, s.entries[r]);
      PublishedKeeps(c, s.clock, s.entries[r], row, s.clock, p);
      PublishedIsCalm(s.entries[r], row, s.clock, p);
      PutKeeps(c, s, r, e');
    }
  }

  lemma PublishedIsCalm(e: Entry, row: nat, now: Time, p: Publication)
    requires row < |e.outbox|
    ensures var e' := PublishedRows(e, row, now, p);
            Calm(e, e') && e'.run == e.run && e'.evaluation == e.evaluation
  {
  }

  lemma DeliverKeeps(c: Config, s: State, r: nat)
    requires Inv(c, s)
    ensures Inv(c, DeliverTx(s, r))
  {
    if DeliverTx(s, r) != s {
      var e := s.entries[r];
      var e' := e.(queued := e.queued - 1, deliveries := e.deliveries + [Undecided]);
      assert EntryOk(c, s.clock, e);
      assert AwaitsDecision(e'.deliveries, |e.deliveries|);
      PutKeeps(c, s, r, e');
    }
  }

  /** Moving a delivery on is harmless when the run is no longer queued, or the message returns. */
  lemma PhaseKeeps(c: Config, s: State, r: nat, d: nat, phase: Phase, requeued: bool)
    requires Inv(c, s) && r < |s.entries| && d < |s.entries[r].deliveries|
    requires requeued || !s.entries[r].run.status.Queued? || !s.entries[r].deliveries[d].Undecided?
    ensures Inv(c, Put(s, r, SetPhase(s.entries[r], d, phase, requeued)))
  {
    var e := s.entries[r];
    var e' := SetPhase(e, d, phase, requeued);
    if e.run.status.Queued? && !requeued {
      if k: nat :| AwaitsDecision(e.deliveries, k) {
        assert AwaitsDecision(e'.deliveries, k);
      }
    }
    PutKeeps(c, s, r, e');
  }

  /** What holds of a claim's rows whichever branch it takes. */
  ghost predicate ClaimKept(c: Config, clock: Time, e: Entry, e': Entry) {
    RowsInv(c, clock, e') && Calm(e, e') && e'.evaluation == e.evaluation
  }

  lemma QueuedClaimKeeps(c: Config, clock: Time, e: Entry, worker: Ident, seen: Observed)
    requires ValidConfig(c) && RowsInv(c, clock, e) && e.run.status.Queued? && e.run.queuedAt <= seen.now <= clock
    ensures ClaimKept(c, clock, e, ClaimRows(c, e, worker, seen).0)
  {
    MaxNumberIsLength(e.attempts);
    if CapacityFull(c, seen) {
      DeferredKeeps(c, clock, e, seen.now);
    } else if Policy(e).Err? || |e.attempts| + 1 > Min(Policy(e).value.maxAttempts, c.maxAttempts) {
      PolicyRejectedKeeps(c, clock, e, seen.now);
    } else {
      LeasedKeeps(c, clock, e, worker, seen.now, seen.txStart);
      LeasedIsCalm(c, e, Policy(e).value, |e.attempts| + 1, worker, seen.now, seen.txStart);
    }
  }

  lemma LeasedIsCalm(c: Config, e: Entry, p: RetryPolicy, number: int, worker: Ident, now: Time, txStart: Time)
    requires Valid(p) && number >= 1 && e.run.status.Queued?
    ensures Calm(e, Leased(c, e, p, number, worker, now, txStart))
  {
  }

  lemma ClaimRowsKeep(c: Config, clock: Time, e: Entry, worker: Ident, seen: Observed)
    requires ValidConfig(c) && RowsInv(c, clock, e) && e.run.queuedAt <= seen.now <= clock
    ensures ClaimKept(c, clock, e, ClaimRows(c, e, worker, seen).0)
    ensures !e.run.status.Queued? || CapacityFull(c, seen) ==> !ClaimRows(c, e, worker, seen).1.Claimed?
  {
    if e.run.status.Queued? {
      QueuedClaimKeeps(c, clock, e, worker, seen);
    }
  }

  lemma ClaimTxKeeps(c: Config, s: State, r: nat, worker: Ident, seen: Observed)
    requires Inv(c, s) && CoversRunning(s, r, seen) && SampledInQueue(s, r, seen)
    ensures Inv(c, ClaimTx(c, s, r, worker, seen).0)
  {
    assert EntryOk(c, s.clock, s.entries[r]);
    ClaimRowsKeep(c, s.clock, s.entries[r], worker, seen);
    WriteRowsKeeps(c, s, r, ClaimRows(c, s.entries[r], worker, seen).0);
  }

  /** Whatever a claim decides, the run is not left waiting. */
  lemma ClaimDecides(c: Config, s: State, r: nat, worker: Ident, seen: Observed)
    requires r < |s.entries| && !LacksRecord(s.entries[r])
    ensures var s' := ClaimTx(c, s, r, worker, seen).0;
            |s'.entries| == |s.entries| && !s'.entries[r].run.status.Queued? && s'.entries[r].deliveries == s.entries[r].deliveries
  {
  }

  lemma ClaimKeeps(c: Config, s: State, r: nat, d: nat, worker: Ident, seen: Observed)
    requires Inv(c, s)
    ensures Inv(c, ClaimDelivery(c, s, r, d, worker, seen))
  {
    if CoversRunning(s, r, seen) && SampledInQueue(s, r, seen) && !LacksRecord(s.entries[r]) {
      ClaimTxKeeps(c, s, r, worker, seen);
      ClaimDecides(c, s, r, worker, seen);
      var s1 := ClaimTx(c, s, r, worker, seen).0;
      if DeliveredAs(s1, r, d, Undecided) {
        PhaseKeeps(c, s1, r, d, Decided, false);
      }
    }
  }

  /** Only the last attempt of a running run can pass the fence. */
  lemma FenceIsLast(c: Config, clock: Time, e: Entry, slot: nat, worker: Ident, now: Time)
    requires RowsInv(c, clock, e) && MayComplete(e, slot, worker, now)
    ensures e.run.status.Running? && slot == |e.attempts| - 1 && Policy(e).Ok? && e.attempts[slot].number == slot + 1
  {
  }

  /** What a completion or a recovery writes over a running run. */
  lemma EndedKeeps(c: Config, s: State, r: nat, e: Entry)
    requires Inv(c, s) && r < |s.entries| && s.entries[r].run.status.Running?
    requires RowsInv(c, s.clock, e) && !e.run.status.Running?
    requires e == s.entries[r].(run := e.run, attempts := e.attempts, events := e.events, outbox := e.outbox)
    ensures Inv(c, WriteRows(s, r, e))
  {
    WriteRowsKeeps(c, s, r, e);
  }

  lemma SuccessKeeps(c: Config, s: State, r: nat, slot: nat, worker: Ident, now: Time, payload: Payload, provider: string)
    requires Inv(c, s) && now <= s.clock
    requires r < |s.entries| && MayComplete(s.entries[r], slot, worker, now) && s.entries[r].attempts[slot].claimedAt <= now
    ensures Inv(c, WriteRows(s, r, SucceededRows(s.entries[r], slot, now, payload, provider)))
  {
    assert EntryOk(c, s.clock, s.entries[r]);
    SucceededEnds(c, s.clock, s.entries[r], slot, worker, now, payload, provider);
    EndedKeeps(c, s, r, SucceededRows(s.entries[r], slot, now, payload, provider));
  }

  lemma SucceededEnds(c: Config, clock: Time, e: Entry, slot: nat, worker: Ident, now: Time, payload: Payload, provider: string)
    requires RowsInv(c, clock, e) && MayComplete(e, slot, worker, now) && e.attempts[slot].claimedAt <= now <= clock
    ensures var e' := SucceededRows(e, slot, now, payload, provider);
            && RowsInv(c, clock, e') && !e'.run.status.Running?
            && e' == e.(run := e'.run, attempts := e'.attempts, events := e'.events, outbox := e'.outbox)
  {
    FenceIsLast(c, clock, e, slot, worker, now);
    SucceededKeeps(c, clock, e, now, payload, provider);
  }

  lemma FailedEnds(c: Config, clock: Time, e: Entry, now: Time, code: ErrorCode)
    requires RowsInv(c, clock, e) && e.run.status.Running? && now <= clock
    requires e.attempts != [] && e.attempts[|e.attempts| - 1].claimedAt <= now
    ensures Policy(e).Ok? && e.attempts[|e.attempts| - 1].number >= 1
    ensures var e' := FailedRows(e, Policy(e).value, |e.attempts| - 1, now, code);
            && RowsInv(c, clock, e') && !e'.run.status.Running?
            && e' == e.(run := e'.run, attempts := e'.attempts, events := e'.events, outbox := e'.outbox)
  {
    FailedKeeps(c, clock, e, now, code);
  }

  lemma FailureKeeps(c: Config, s: State, r: nat, now: Time, code: ErrorCode)
    requires Inv(c, s) && now <= s.clock && r < |s.entries| && s.entries[r].run.status.Running?
    requires s.entries[r].attempts != [] && s.entries[r].attempts[|s.entries[r].attempts| - 1].claimedAt <= now
    ensures Policy(s.entries[r]).Ok?
    ensures s.entries[r].attempts[|s.entries[r].attempts| - 1].number >= 1
    ensures Inv(c, WriteRows(s, r, FailedRows(s.entries[r], Policy(s.entries[r]).value, |s.entries[r].attempts| - 1, now, code)))
  {
    var e := s.entries[r];
    assert EntryOk(c, s.clock, e);
    FailedEnds(c, s.clock, e, now, code);
    EndedKeeps(c, s, r, FailedRows(e, Policy(e).value, |e.attempts| - 1, now, code));
  }

  lemma CompleteKeeps(c: Config, s: State, r: nat, slot: nat, worker: Ident, now: Time, report: Report)
    requires Inv(c, s)
    ensures Inv(c, CompleteStep(s, r, slot, worker, now, report))
  {
    if r < |s.entries| && MayComplete(s.entries[r], slot, worker, now) && s.entries[r].attempts[slot].claimedAt <= now <= s.clock {
      assert EntryOk(c, s.clock, s.entries[r]);
      FenceIsLast(c, s.clock, s.entries[r], slot, worker, now);
      match report {
        case SuccessReport(payload, provider) => SuccessKeeps(c, s, r, slot, worker, now, payload, provider);
        case FailureReport(code) => FailureKeeps(c, s, r, now, code);
      }
    }
  }

  lemma RecoverKeeps(c: Config, s: State, r: nat, now: Time)
    requires Inv(c, s)
    ensures Inv(c, RecoverStep(s, r, now))
  {
    if r < |s.entries| && LeaseIsStale(s.entries[r], now) && now <= s.clock {
      assert EntryOk(c, s.clock, s.entries[r]);
      OpenAttemptIsLast(s.entries[r].attempts);
      FailureKeeps(c, s, r, now, LeaseExpired);
    }
  }

  lemma ScheduleKeeps(c: Config, s: State, r: nat, now: Time)
    requires Inv(c, s)
    ensures Inv(c, ScheduleStep(s, r, now))
  {
    if r < |s.entries| && RetryIsDue(s.entries[r], now) && now <= s.clock {
      assert EntryOk(c, s.clock, s.entries[r]);
      RequeuedKeeps(c, s.clock, s.entries[r], now);
      PutKeeps(c, s, r, RequeuedRows(s.entries[r], s.clock));
    }
  }

  /** A charge moves one count of one attempt and books exactly that. */
  lemma ChargePaid(log: seq<Quota.Charge>, entries: seq<Entry>, x: Quota.Charge, e: Entry)
    requires PaidOk(log, entries) && x.run < |entries| && x.slot < |entries[x.run].spending| == |e.spending|
    requires forall slot :: 0 <= slot < |e.spending| ==>
               e.spending[slot].charges == entries[x.run].spending[slot].charges + if slot == x.slot then 1 else 0
    ensures PaidOk(log + [x], entries[x.run := e])
  {
    var entries' := entries[x.run := e];
    forall q: nat, slot: nat ensures Quota.ByAttempt(log + [x], q, slot) == ChargesOf(entries', q, slot) {
      assert Quota.ByAttempt(log, q, slot) == ChargesOf(entries, q, slot);
      Quota.ByAttemptAppend(log, x, q, slot);
    }
  }

  lemma PaidExecutorKeeps(c: Config, clock: Time, e: Entry, slot: nat)
    requires EntryOk(c, clock, e) && slot < |e.spending| && e.spending[slot].activity.Calling?
    ensures EntryOk(c, clock, WithExecutor(e, slot, e.spending[slot].(charges := e.spending[slot].charges + 1, activity := Paid)))
  {
    var x := e.spending[slot].(charges := e.spending[slot].charges + 1, activity := Paid);
    assert ExecutorOk(Targets(c, e.accepted), Cases(c, e.accepted), e.spending[slot]);
    assert ExecutorOk(Targets(c, e.accepted), Cases(c, e.accepted), x);
    WithExecutorKeeps(c, clock, e, slot, x);
  }

  function PaidExecutor(x: Spending): Spending {
    x.(charges := x.charges + 1, activity := Paid)
  }

  lemma ChargeBooks(c: Config, s: State, r: nat, slot: nat, at: Time)
    requires Inv(c, s) && ReadInOrder(s, r, slot, at) && slot < |s.entries[r].spending|
    requires Quota.TryCharge(s.ledger, c.limits, ChargeFor(s, r, slot, at)).1
    ensures var ledger := Quota.TryCharge(s.ledger, c.limits, ChargeFor(s, r, slot, at)).0;
            && Quota.Inv(c.limits, ledger, Epoch(s))
            && PaidOk(ledger.log, s.entries[r := WithExecutor(s.entries[r], slot, PaidExecutor(s.entries[r].spending[slot]))])
  {
    var e := s.entries[r];
    assert at.Floor <= Epoch(s);
    Quota.ChargeKeepsInv(c.limits, s.ledger, ChargeFor(s, r, slot, at), Epoch(s));
    ChargePaid(s.ledger.log, s.entries, ChargeFor(s, r, slot, at), WithExecutor(e, slot, PaidExecutor(e.spending[slot])));
  }

  lemma ChargeWrites(c: Config, s: State, r: nat, slot: nat, worker: Ident, now: Time, at: Time)
    requires c.limits.windowSeconds > 0
    ensures var (s', accepted) := ChargeTx(c, s, r, slot, worker, now, at);
            && (!accepted ==> s' == s)
            && (accepted ==>
                  && r < |s.entries| && slot < |s.entries[r].spending| && s.entries[r].spending[slot].activity.Calling?
                  && var (ledger, booked) := Quota.TryCharge(s.ledger, c.limits, ChargeFor(s, r, slot, at));
                     booked && s' == Put(s, r, WithExecutor(s.entries[r], slot, PaidExecutor(s.entries[r].spending[slot]))).(ledger := ledger))
  {
  }

  lemma ChargeKeeps(c: Config, s: State, r: nat, slot: nat, worker: Ident, now: Time, at: Time)
    requires Inv(c, s) && ReadInOrder(s, r, slot, at)
    ensures Inv(c, ChargeTx(c, s, r, slot, worker, now, at).0)
  {
    ChargeWrites(c, s, r, slot, worker, now, at);
    if ChargeTx(c, s, r, slot, worker, now, at).1 {
      var e := s.entries[r];
      var e' := WithExecutor(e, slot, PaidExecutor(e.spending[slot]));
      assert EntryOk(c, s.clock, e);
      PaidExecutorKeeps(c, s.clock, e, slot);
      ChargeBooks(c, s, r, slot, at);
      ChargedKeeps(c, s, r, e', Quota.TryCharge(s.ledger, c.limits, ChargeFor(s, r, slot, at)).0);
    }
  }

  /** A paid executor and the ledger that books its payment, together. */
  lemma ChargedKeeps(c: Config, s: State, r: nat, e: Entry, ledger: Quota.Ledger)
    requires Inv(c, s) && r < |s.entries| && EntryOk(c, s.clock, e)
    requires e.accepted == s.entries[r].accepted && e.evaluation == s.entries[r].evaluation && e.run == s.entries[r].run
    requires Quota.Inv(c.limits, ledger, Epoch(s)) && PaidOk(ledger.log, s.entries[r := e])
    ensures Inv(c, Put(s, r, e).(ledger := ledger))
  {
    PutCapsAndKeys(c, s.entries, r, e);
  }

  lemma ExecutorKeeps(c: Config, s: State, r: nat, slot: nat, action: Action)
    requires Inv(c, s) && r < |s.entries| && slot < |s.entries[r].spending|
    ensures var e := s.entries[r];
            Inv(c, Put(s, r, WithExecutor(e, slot, Moved(c, e.accepted, e.spending[slot], action))))
  {
    var e := s.entries[r];
    assert EntryOk(c, s.clock, e) && ExecutorOk(Targets(c, e.accepted), Cases(c, e.accepted), e.spending[slot]);
    ExecutorMoves(c, e.accepted, e.spending[slot], action);
    WithExecutorKeeps(c, s.clock, e, slot, Moved(c, e.accepted, e.spending[slot], action));
    PutKeeps(c, s, r, WithExecutor(e, slot, Moved(c, e.accepted, e.spending[slot], action)));
  }

  lemma SpendKeeps(c: Config, s: State, r: nat, slot: nat, action: Action)
    requires Inv(c, s)
    ensures Inv(c, SpendStep(c, s, r, slot, action))
  {
    if r < |s.entries| && slot < |s.entries[r].spending| {
      if action.Pay? {
        if ReadInOrder(s, r, slot, action.at) {
          ChargeKeeps(c, s, r, slot, action.worker, action.now, action.at);
        }
      } else {
        ExecutorKeeps(c, s, r, slot, action);
      }
    }
  }

  lemma PutCapsAndKeys(c: Config, entries: seq<Entry>, r: nat, e: Entry)
    requires CapsOk(c, entries) && SourcesOk(entries) && KeysOk(entries) && IdsOk(entries) && r < |entries|
    requires e.accepted == entries[r].accepted && e.evaluation == entries[r].evaluation && e.run == entries[r].run
    ensures CapsOk(c, entries[r := e]) && SourcesOk(entries[r := e]) && KeysOk(entries[r := e]) && IdsOk(entries[r := e])
  {
    var entries' := entries[r := e];
    forall scope ensures CapOk(c, entries', scope) {
      assert CapOk(c, entries, scope);
      RunningAfterPut(entries, r, e, scope);
      ActiveAfterPut(entries, r, e, scope);
    }
    forall k | 0 <= k < |entries'| ensures SourceOk(entries', entries'[k]) {
      assert SourceOk(entries, entries[k]);
    }
    forall i, j | 0 <= i < j < |entries'|
      ensures !SameKey(entries'[i].accepted, entries'[j].accepted)
      ensures !SameEvaluationId(entries'[i].evaluation, entries'[j].evaluation)
    {
      assert !SameKey(entries[i].accepted, entries[j].accepted);
      assert !SameEvaluationId(entries[i].evaluation, entries[j].evaluation);
    }
  }

  lemma SettleKeeps(c: Config, s: State, r: nat, d: nat, requeue: bool)
    requires Inv(c, s)
    ensures Inv(c, SettleTx(s, r, d, requeue))
  {
    if DeliveredAs(s, r, d, Decided) {
      PhaseKeeps(c, s, r, d, Closed, requeue);
    }
  }

  lemma CrashKeeps(c: Config, s: State, r: nat, d: nat)
    requires Inv(c, s)
    ensures Inv(c, CrashTx(s, r, d))
  {
    if DeliveredAs(s, r, d, Undecided) || DeliveredAs(s, r, d, Decided) {
      PhaseKeeps(c, s, r, d, Closed, true);
    }
  }

  /** Every step of the machine keeps the invariant. */
  lemma StepKeeps(c: Config, s: State, step: Step)
    requires Inv(c, s)
    ensures Inv(c, Apply(c, s, step))
  {
    match step {
      case Tick(delta) => TickKeeps(c, s, delta);
      case Submit(q, seen) => SubmitKeeps(c, s, q, seen);
      case Replay(q, seen) => ReplayKeeps(c, s, q, seen);
      case Evaluate(q, seen) => EvaluateKeeps(c, s, q, seen);
      case Publish(r, row, p) => PublishKeeps(c, s, r, row, p);
      case Deliver(r) => DeliverKeeps(c, s, r);
      case Claim(r, d, worker, seen) => ClaimKeeps(c, s, r, d, worker, seen);
      case Settle(r, d, requeue) => SettleKeeps(c, s, r, d, requeue);
      case Crash(r, d) => CrashKeeps(c, s, r, d);
      case Complete(r, slot, worker, now, report) => CompleteKeeps(c, s, r, slot, worker, now, report);
      case Recover(r, now) => RecoverKeeps(c, s, r, now);
      case Schedule(r, now) => ScheduleKeeps(c, s, r, now);
      case Spend(r, slot, action) => SpendKeeps(c, s, r, slot, action);
    }
  }

  /** The invariant holds after every list of steps. */
  lemma {:induction false} ExecuteKeeps(c: Config, s: State, steps: seq<Step>)
    requires Inv(c, s)
    ensures Inv(c, Execute(c, s, steps))
    decreases |steps|
  {
    if steps != [] {
      StepKeeps(c, s, steps[0]);
      ExecuteKeeps(c, Apply(c, s, steps[0]), steps[1..]);
    }
  }
}
