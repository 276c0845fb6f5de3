/**
 A run's `evaluation_status` mirrors its latest evaluation. The latest one is chosen by
 `created_at`, which is the start of the creating transaction and not its commit, so the
 mirror depends on evaluations being stamped in the order in which they are accepted.
 */
module Mirror {
  import opened Domain
  import opened Retry
  import opened Tables
  import opened Transitions
  import opened EntryInvariant
  import opened Protocol
  import opened ProtocolInvariant
  import opened Evolution

  ghost predicate NeverEvaluated(entries: seq<Entry>, source: nat) {
    forall j :: 0 <= j < |entries| ==> !Evaluates(entries[j], source)
  }

  /** The run shows what its latest evaluation shows, and NOT_RUN when it has none. */
  ghost predicate MirrorAt(entries: seq<Entry>, source: nat)
    requires source < |entries|
  {
    && (NeverEvaluated(entries, source) ==> entries[source].evaluationStatus.NotRun?)
    && forall j :: 0 <= j < |entries| && Evaluates(entries[j], source) && IsLatest(entries, j) ==>
         entries[source].evaluationStatus == entries[j].evaluation.value.status
  }

  ghost predicate MirrorOk(entries: seq<Entry>) {
    forall source :: 0 <= source < |entries| ==> MirrorAt(entries, source)
  }

  /** Among the evaluations of a source there is a latest one, and ids decide ties: it is unique. */
  lemma {:induction false} LatestExists(entries: seq<Entry>, source: nat, n: nat) returns (j: nat)
    requires n <= |entries| && IdsOk(entries)
    requires exists k :: 0 <= k < n && Evaluates(entries[k], source)
    ensures j < n && Evaluates(entries[j], source)
    ensures forall k :: 0 <= k < n && k != j && Evaluates(entries[k], source) ==>
              Newer(entries[j].evaluation.value, entries[k].evaluation.value)
    decreases n
  {
    if exists k :: 0 <= k < n - 1 && Evaluates(entries[k], source) {
      j := LatestExists(entries, source, n - 1);
      if Evaluates(entries[n - 1], source) {
        assert !SameEvaluationId(entries[j].evaluation, entries[n - 1].evaluation);
        if Newer(entries[n - 1].evaluation.value, entries[j].evaluation.value) {
          j := n - 1;
        }
      }
    } else {
      j := n - 1;
    }
  }

  /** The latest evaluation is the one with the greatest stamp, and among equal stamps the greatest id. */
  lemma LatestByStamp(entries: seq<Entry>, j: nat)
    requires j < |entries| && entries[j].evaluation.Some? && IdsOk(entries)
    ensures IsLatest(entries, j) <==>
              forall k :: 0 <= k < |entries| && k != j && Evaluates(entries[k], entries[j].evaluation.value.source) ==>
                || entries[k].evaluation.value.createdAt < entries[j].evaluation.value.createdAt
                || (entries[k].evaluation.value.createdAt == entries[j].evaluation.value.createdAt &&
                    entries[k].evaluation.value.id < entries[j].evaluation.value.id)
  {
    forall k | 0 <= k < |entries| && k != j && Evaluates(entries[k], entries[j].evaluation.value.source)
      ensures entries[k].evaluation.value.id != entries[j].evaluation.value.id
    {
      assert if k < j then !SameEvaluationId(entries[k].evaluation, entries[j].evaluation) else !SameEvaluationId(entries[j].evaluation, entries[k].evaluation);
    }
  }

  /** What the database would store for the evaluation that a request asks for. */
  function Requested(q: EvaluateRequest): Evaluation {
    Evaluation(q.source, q.id, q.stamp, Pending, None, None)
  }

  /**
   The request's stamp is later than that of every evaluation its source already has, or the
   one that stays the latest is still pending.
   */
  ghost predicate InOrder(s: State, q: EvaluateRequest) {
    || (forall k :: 0 <= k < |s.entries| && Evaluates(s.entries[k], q.source) ==>
          Newer(Requested(q), s.entries[k].evaluation.value))
    || (forall k :: 0 <= k < |s.entries| && Evaluates(s.entries[k], q.source) && IsLatest(s.entries, k) ==>
          s.entries[k].evaluation.value.status.Pending?)
  }

  ghost predicate Accepts(c: Config, s: State, step: Step)
    requires c.limits.windowSeconds > 0
  {
    step.Evaluate? && Apply(c, s, step) != s
  }

  // ---------------------------------------------------------------------------------------
  // Steps that leave evaluations alone
  // ---------------------------------------------------------------------------------------

  ghost predicate SameEvaluations(a: seq<Entry>, b: seq<Entry>) {
    |a| == |b| && forall r :: 0 <= r < |a| ==> a[r].evaluation == b[r].evaluation && a[r].evaluationStatus == b[r].evaluationStatus
  }

  lemma SameMirror(a: seq<Entry>, b: seq<Entry>)
    requires MirrorOk(a) && SameEvaluations(a, b)
    ensures MirrorOk(b)
  {
    forall source | 0 <= source < |b| ensures MirrorAt(b, source) {
      assert MirrorAt(a, source);
      assert NeverEvaluated(b, source) ==> NeverEvaluated(a, source);
      forall j | 0 <= j < |b| && Evaluates(b[j], source) && IsLatest(b, j)
        ensures b[source].evaluationStatus == b[j].evaluation.value.status
      {
        assert IsLatest(a, j);
      }
    }
  }

  lemma PlainAppend(entries: seq<Entry>, e: Entry)
    requires MirrorOk(entries) && SourcesOk(entries) && e.evaluation.None? && e.evaluationStatus.NotRun?
    ensures MirrorOk(entries + [e])
  {
    var b := entries + [e];
    assert forall j :: 0 <= j < |entries| ==> b[j] == entries[j];
    forall source | 0 <= source < |b| ensures MirrorAt(b, source) {
      assert forall j :: 0 <= j < |entries| ==> SourceOk(entries, entries[j]);
      if source < |entries| {
        assert MirrorAt(entries, source);
        assert NeverEvaluated(b, source) ==> NeverEvaluated(entries, source);
        forall j | 0 <= j < |b| && Evaluates(b[j], source) && IsLatest(b, j)
          ensures b[source].evaluationStatus == b[j].evaluation.value.status
        {
          assert entries[j] == b[j];
          assert IsLatest(entries, j);
        }
      }
    }
  }

  // ---------------------------------------------------------------------------------------
  // Settling an evaluation
  // ---------------------------------------------------------------------------------------

  /** Settling a job keeps the mirror whether or not its evaluation is the latest. */
  lemma FinalizeMirror(s: State, r: nat)
    requires MirrorOk(s.entries) && IdsOk(s.entries) && r < |s.entries| && s.entries[r].evaluation.Some?
    requires SourceOk(s.entries, s.entries[r])
    ensures MirrorOk(FinalizeEvaluation(s, r).entries)
  {
    var closed := Put(s, r, ClosedEvaluation(s.entries[r])).entries;
    var v := closed[r].evaluation.value;
    var b := FinalizeEvaluation(s, r).entries;
    assert forall k :: 0 <= k < |b| ==> b[k].evaluation == closed[k].evaluation;
    assert forall k :: 0 <= k < |b| ==> SameRecord(s.entries[k].evaluation, b[k].evaluation);
    forall source | 0 <= source < |b| ensures MirrorAt(b, source) {
      assert MirrorAt(s.entries, source);
      assert NeverEvaluated(b, source) ==> NeverEvaluated(s.entries, source);
      forall j | 0 <= j < |b| && Evaluates(b[j], source) && IsLatest(b, j)
        ensures b[source].evaluationStatus == b[j].evaluation.value.status
      {
        LatestSurvives(s.entries, b, j);
        assert b[r].evaluation.value == v;
        LatestSurvives(closed, b, j);
        if source == v.source {
          if IsLatest(closed, r) {
            LatestUnique(closed, j, r);
          }
        }
      }
    }
  }

  lemma LatestSurvives(a: seq<Entry>, b: seq<Entry>, j: nat)
    requires |a| == |b| && j < |b| && b[j].evaluation.Some? && IsLatest(b, j)
    requires forall k :: 0 <= k < |b| ==> SameRecord(a[k].evaluation, b[k].evaluation)
    ensures a[j].evaluation.Some? && IsLatest(a, j)
  {
  }

  lemma LatestUnique(entries: seq<Entry>, i: nat, j: nat)
    requires IdsOk(entries) && i < |entries| && j < |entries|
    requires entries[i].evaluation.Some? && entries[j].evaluation.Some?
    requires entries[i].evaluation.value.source == entries[j].evaluation.value.source
    requires IsLatest(entries, i) && IsLatest(entries, j)
    ensures i == j
  {
  }

  lemma WriteRowsMirror(c: Config, s: State, r: nat, e: Entry)
    requires Inv(c, s) && MirrorOk(s.entries) && r < |s.entries|
    requires e.evaluation == s.entries[r].evaluation && e.evaluationStatus == s.entries[r].evaluationStatus
    requires Calm(s.entries[r], e)
    ensures MirrorOk(WriteRows(s, r, e).entries)
  {
    SameMirror(s.entries, Put(s, r, e).entries);
    if Terminal(e.run.status) && !Terminal(s.entries[r].run.status) && e.accepted.kind.EvaluationWork? && e.evaluation.Some? {
      PutSources(s.entries, r, e);
      PutKeysAndIds(s.entries, r, e);
      FinalizeMirror(Put(s, r, e), r);
    }
  }

  // ---------------------------------------------------------------------------------------
  // Accepting an evaluation
  // ---------------------------------------------------------------------------------------

  /** The entries once an evaluation of `k` has been accepted. */
  ghost predicate Accepted(a: seq<Entry>, b: seq<Entry>, q: EvaluateRequest) {
    && q.source < |a| && |b| == |a| + 1
    && (forall r :: 0 <= r < |a| ==> b[r].evaluation == a[r].evaluation)
    && (forall r :: 0 <= r < |a| && r != q.source ==> b[r].evaluationStatus == a[r].evaluationStatus)
    && b[q.source].evaluationStatus.Pending?
    && b[|a|].evaluation == Some(Requested(q)) && b[|a|].evaluationStatus.NotRun?
  }

  lemma AcceptedOthers(a: seq<Entry>, b: seq<Entry>, q: EvaluateRequest, source: nat)
    requires MirrorOk(a) && SourcesOk(a) && Accepted(a, b, q) && source < |b| && source != q.source
    ensures MirrorAt(b, source)
  {
    assert forall j :: 0 <= j < |a| ==> SourceOk(a, a[j]);
    if source < |a| {
      assert MirrorAt(a, source);
      assert NeverEvaluated(b, source) ==> NeverEvaluated(a, source);
      forall j | 0 <= j < |b| && Evaluates(b[j], source) && IsLatest(b, j)
        ensures b[source].evaluationStatus == b[j].evaluation.value.status
      {
        assert j < |a| && IsLatest(a, j) by { IsLatestBelow(a, b, j); }
      }
    }
  }

  lemma IsLatestBelow(a: seq<Entry>, b: seq<Entry>, j: nat)
    requires |a| <= |b| && j < |a| && b[j].evaluation.Some? && IsLatest(b, j)
    requires forall r :: 0 <= r < |a| ==> b[r].evaluation == a[r].evaluation
    ensures IsLatest(a, j)
  {
  }

  /** The mirror survives an accepted evaluation exactly when it came in order. */
  lemma AcceptedExactly(s: State, b: seq<Entry>, q: EvaluateRequest)
    requires MirrorOk(s.entries) && SourcesOk(s.entries) && IdsOk(s.entries) && IdsOk(b) && Accepted(s.entries, b, q)
    ensures MirrorOk(b) <==> InOrder(s, q)
  {
    var a, n := s.entries, |s.entries|;
    forall source | 0 <= source < |b| && source != q.source ensures MirrorAt(b, source) {
      AcceptedOthers(a, b, q, source);
    }
    assert Evaluates(b[n], q.source);
    var top := LatestExists(b, q.source, |b|);
    assert IsLatest(b, top);
    if InOrder(s, q) {
      forall j | 0 <= j < |b| && Evaluates(b[j], q.source) && IsLatest(b, j)
        ensures b[q.source].evaluationStatus == b[j].evaluation.value.status
      {
        LatestUnique(b, j, top);
        if top < n {
          IsLatestBelow(a, b, top);
          assert Newer(b[top].evaluation.value, b[n].evaluation.value);
        }
      }
      assert MirrorAt(b, q.source);
    } else {
      var k :| 0 <= k < n && Evaluates(a[k], q.source) && !Newer(Requested(q), a[k].evaluation.value);
      var l :| 0 <= l < n && Evaluates(a[l], q.source) && IsLatest(a, l) && !a[l].evaluation.value.status.Pending?;
      assert k != top ==> Newer(b[top].evaluation.value, b[k].evaluation.value);
      assert top < n;
      IsLatestBelow(a, b, top);
      LatestUnique(a, top, l);
      assert !MirrorAt(b, q.source);
    }
  }

  // ---------------------------------------------------------------------------------------
  // Every step
  // ---------------------------------------------------------------------------------------

  lemma SubmitMirror(c: Config, s: State, q: Submission, seen: Observed)
    requires Inv(c, s) && MirrorOk(s.entries)
    ensures MirrorOk(SubmitStep(c, s, q, seen).entries)
  {
    if SubmitStep(c, s, q, seen) != s {
      PlainAppend(s.entries, NewEntry(AcceptedSubmission(q), RunQueued, None, s.clock));
    }
  }

  lemma ReplayMirror(c: Config, s: State, q: ReplayRequest, seen: Observed)
    requires Inv(c, s) && MirrorOk(s.entries)
    ensures MirrorOk(ReplayStep(c, s, q, seen).entries)
  {
    if ReplayStep(c, s, q, seen) != s {
      var source := s.entries[q.source];
      var told := source.(events := source.events + [ReplayCreated(|s.entries|)]);
      PutMirror(s.entries, q.source, told);
      PutSources(s.entries, q.source, told);
      PlainAppend(s.entries[q.source := told], NewEntry(AcceptedReplay(s, q), RunReplayQueued(q.source), None, s.clock));
    }
  }

  lemma ClaimTxMirror(c: Config, s: State, r: nat, worker: Ident, seen: Observed)
    requires Inv(c, s) && MirrorOk(s.entries) && SampledInQueue(s, r, seen)
    ensures MirrorOk(ClaimTx(c, s, r, worker, seen).0.entries)
  {
    assert EntryOk(c, s.clock, s.entries[r]);
    ClaimRowsKeep(c, s.clock, s.entries[r], worker, seen);
    WriteRowsMirror(c, s, r, ClaimRows(c, s.entries[r], worker, seen).0);
  }

  lemma ClaimMirror(c: Config, s: State, r: nat, d: nat, worker: Ident, seen: Observed)
    requires Inv(c, s) && MirrorOk(s.entries)
    ensures MirrorOk(ClaimDelivery(c, s, r, d, worker, seen).entries)
  {
    if ClaimDelivery(c, s, r, d, worker, seen) != s {
      ClaimTxMirror(c, s, r, worker, seen);
      var s1 := ClaimTx(c, s, r, worker, seen).0;
      if DeliveredAs(s1, r, d, Undecided) {
        PutMirror(s1.entries, r, SetPhase(s1.entries[r], d, Decided, false));
      }
    }
  }

  lemma CompletedIsCalm(c: Config, clock: Time, e: Entry, slot: nat, worker: Ident, now: Time, report: Report)
    requires EntryOk(c, clock, e) && CompletedRows(e, slot, worker, now, report).Some?
    ensures var e' := CompletedRows(e, slot, worker, now, report).value;
            Calm(e, e') && e'.evaluation == e.evaluation && e'.evaluationStatus == e.evaluationStatus
  {
  }

  lemma CompleteMirror(c: Config, s: State, r: nat, slot: nat, worker: Ident, now: Time, report: Report)
    requires Inv(c, s) && MirrorOk(s.entries)
    ensures MirrorOk(CompleteStep(s, r, slot, worker, now, report).entries)
  {
    if r < |s.entries| && CompletedRows(s.entries[r], slot, worker, now, report).Some? {
      assert EntryOk(c, s.clock, s.entries[r]);
      CompletedIsCalm(c, s.clock, s.entries[r], slot, worker, now, report);
      WriteRowsMirror(c, s, r, CompletedRows(s.entries[r], slot, worker, now, report).value);
    }
  }

  lemma RecoverMirror(c: Config, s: State, r: nat, now: Time)
    requires Inv(c, s) && MirrorOk(s.entries)
    ensures MirrorOk(RecoverStep(s, r, now).entries)
  {
    if r < |s.entries| && RecoveredRows(s.entries[r], now).Some? {
      WriteRowsMirror(c, s, r, RecoveredRows(s.entries[r], now).value);
    }
  }

  lemma PutMirror(entries: seq<Entry>, r: nat, e: Entry)
    requires MirrorOk(entries) && r < |entries|
    requires e.evaluation == entries[r].evaluation && e.evaluationStatus == entries[r].evaluationStatus
    ensures MirrorOk(entries[r := e])
  {
    SameMirror(entries, entries[r := e]);
  }

  lemma PublishMirror(s: State, r: nat, row: nat, p: Publication)
    requires MirrorOk(s.entries)
    ensures MirrorOk(PublishTx(s, r, row, p).entries)
  {
    if PublishTx(s, r, row, p) != s {
      PutMirror(s.entries, r, PublishedRows(s.entries[r], row, s.clock, p));
    }
  }

  lemma SpendMirror(c: Config, s: State, r: nat, slot: nat, action: Action)
    requires c.limits.windowSeconds > 0 && MirrorOk(s.entries)
    ensures MirrorOk(SpendStep(c, s, r, slot, action).entries)
  {
    var s' := SpendStep(c, s, r, slot, action);
    if s'.entries != s.entries {
      PutMirror(s.entries, r, s'.entries[r]);
    }
  }

  /** The broker's moves and the scheduling of a retry. */
  lemma QuietStepMirror(c: Config, s: State, step: Step)
    requires c.limits.windowSeconds > 0 && MirrorOk(s.entries)
    requires step.Tick? || step.Deliver? || step.Settle? || step.Crash? || step.Schedule?
    ensures MirrorOk(Apply(c, s, step).entries)
  {
    var s' := Apply(c, s, step);
    if s'.entries != s.entries {
      PutMirror(s.entries, step.r, s'.entries[step.r]);
    }
  }

  lemma AcceptedEntries(c: Config, s: State, q: EvaluateRequest, seen: Observed)
    requires c.limits.windowSeconds > 0 && EvaluateStep(c, s, q, seen) != s
    ensures Accepted(s.entries, EvaluateStep(c, s, q, seen).entries, q)
  {
  }

  /**
   Of all steps, only accepting an evaluation can break the mirror, and it does so exactly
   when the new evaluation is stamped before one that has already been decided.
   */
  lemma MirrorExact(c: Config, s: State, step: Step)
    requires Inv(c, s) && MirrorOk(s.entries)
    ensures MirrorOk(Apply(c, s, step).entries) <==> (Accepts(c, s, step) ==> InOrder(s, step.evaluate))
  {
    if Accepts(c, s, step) {
      EvaluateKeeps(c, s, step.evaluate, step.seen);
      AcceptedEntries(c, s, step.evaluate, step.seen);
      AcceptedExactly(s, EvaluateStep(c, s, step.evaluate, step.seen).entries, step.evaluate);
    } else {
      OtherStepMirror(c, s, step);
    }
  }

  /** No other step can break it. */
  lemma OtherStepMirror(c: Config, s: State, step: Step)
    requires Inv(c, s) && MirrorOk(s.entries) && !Accepts(c, s, step)
    ensures MirrorOk(Apply(c, s, step).entries)
  {
    match step {
      case Submit(q, seen) => SubmitMirror(c, s, q, seen);
      case Replay(q, seen) => ReplayMirror(c, s, q, seen);
      case Evaluate(_, _) =>
      case Claim(r, d, worker, seen) => ClaimMirror(c, s, r, d, worker, seen);
      case Complete(r, slot, worker, now, report) => CompleteMirror(c, s, r, slot, worker, now, report);
      case Recover(r, now) => RecoverMirror(c, s, r, now);
      case Publish(r, row, p) => PublishMirror(s, r, row, p);
      case Spend(r, slot, action) => SpendMirror(c, s, r, slot, action);
      case _ => QuietStepMirror(c, s, step);
    }
  }

  /** Every evaluation along the execution is accepted in order. */
  ghost predicate StampedInOrder(c: Config, s: State, steps: seq<Step>)
    requires c.limits.windowSeconds > 0
    decreases |steps|
  {
    steps == [] ||
    (&& (Accepts(c, s, steps[0]) ==> InOrder(s, steps[0].evaluate))
     && StampedInOrder(c, Apply(c, s, steps[0]), steps[1..]))
  }

  /** The mirror is right before, between and after the steps. */
  ghost predicate AlwaysMirrors(c: Config, s: State, steps: seq<Step>)
    requires c.limits.windowSeconds > 0
    decreases |steps|
  {
    MirrorOk(s.entries) && (steps == [] || AlwaysMirrors(c, Apply(c, s, steps[0]), steps[1..]))
  }

  lemma {:induction false} MirrorFrom(c: Config, s: State, steps: seq<Step>)
    requires Inv(c, s) && MirrorOk(s.entries)
    ensures AlwaysMirrors(c, s, steps) <==> StampedInOrder(c, s, steps)
    decreases |steps|
  {
    if steps != [] {
      MirrorExact(c, s, steps[0]);
      StepKeeps(c, s, steps[0]);
      if MirrorOk(Apply(c, s, steps[0]).entries) {
        MirrorFrom(c, Apply(c, s, steps[0]), steps[1..]);
      }
    }
  }

  lemma {:induction false} MirrorsAtEnd(c: Config, s: State, steps: seq<Step>)
    requires c.limits.windowSeconds > 0 && AlwaysMirrors(c, s, steps)
    ensures MirrorOk(Execute(c, s, steps).entries)
    decreases |steps|
  {
    if steps != [] {
      MirrorsAtEnd(c, Apply(c, s, steps[0]), steps[1..]);
    }
  }

  /**
   From the empty database, the mirror stays right throughout an execution if and only if every
   evaluation is accepted in order; then it is right at the end as well.
   */
  lemma MirrorHolds(c: Config, steps: seq<Step>)
    requires ValidConfig(c)
    ensures AlwaysMirrors(c, INITIAL, steps) <==> StampedInOrder(c, INITIAL, steps)
    ensures StampedInOrder(c, INITIAL, steps) ==> MirrorOk(Execute(c, INITIAL, steps).entries)
  {
    InitialInv(c);
    MirrorFrom(c, INITIAL, steps);
    if StampedInOrder(c, INITIAL, steps) {
      MirrorsAtEnd(c, INITIAL, steps);
    }
  }
}
