/** Idempotency keys over any interleaving of submissions, replays and everything else. */
module Idempotency {
  import opened Domain
  import opened Retry
  import opened Tables
  import opened Transitions
  import opened Protocol
  import opened ProtocolInvariant
  import opened Evolution
  import opened Frames
  import opened Guarantees

  lemma {:induction false} FoundIs(entries: seq<Entry>, id: nat)
    requires KeysOk(entries) && id < |entries|
    ensures FindByKey(entries, entries[id].accepted.client, entries[id].accepted.key) == Some(id)
  {
  }

  /** At most one run per client and key, in every reachable state. */
  lemma OneRunPerKey(c: Config, steps: seq<Step>, i: nat, j: nat)
    requires ValidConfig(c) && i < |After(c, steps).entries| && j < |After(c, steps).entries|
    requires SameKey(After(c, steps).entries[i].accepted, After(c, steps).entries[j].accepted)
    ensures i == j
  {
    Reached(c, steps);
    FoundIs(After(c, steps).entries, i);
    FoundIs(After(c, steps).entries, j);
  }

  /** A bound key stays bound to the same run and the same request. */
  lemma KeyStaysBound(c: Config, s: State, more: seq<Step>, id: nat)
    requires Inv(c, s) && id < |s.entries|
    ensures var s' := Execute(c, s, more);
            && id < |s'.entries| && s'.entries[id].accepted == s.entries[id].accepted
            && FindByKey(s'.entries, s.entries[id].accepted.client, s.entries[id].accepted.key) == Some(id)
  {
    ExecuteEvolves(c, s, more, id);
    ExecuteKeeps(c, s, more);
    FoundIs(Execute(c, s, more).entries, id);
  }

  // ---------------------------------------------------------------------------------------
  // What makes two requests the same
  // ---------------------------------------------------------------------------------------

  /** The work kind that a request's digest shows: a job's own, or what an execution's policy happens to name so. */
  function ShownKind(snapshot: Snapshot, kind: WorkKind): Option<Value> {
    match kind
    case ExecutionWork => if WorkKindName in snapshot then Some(snapshot[WorkKindName]) else None
    case EvaluationWork => Some(TextValue("evaluation"))
    case RegressionWork => Some(TextValue("regression"))
  }

  /** Two policies agree on every field but the work kind, and show the same work kind. */
  ghost predicate SamePolicy(snapshot: Snapshot, kind: WorkKind, snapshot': Snapshot, kind': WorkKind) {
    && (forall field :: field != WorkKindName ==>
          (field in snapshot <==> field in snapshot') && (field in snapshot ==> snapshot[field] == snapshot'[field]))
    && ShownKind(snapshot, kind) == ShownKind(snapshot', kind')
  }

  lemma HashedAlike(snapshot: Snapshot, kind: WorkKind, snapshot': Snapshot, kind': WorkKind)
    ensures HashedPolicy(snapshot, kind) == HashedPolicy(snapshot', kind') <==> SamePolicy(snapshot, kind, snapshot', kind')
  {
    var p, p' := HashedPolicy(snapshot, kind), HashedPolicy(snapshot', kind');
    assert KindName(EvaluationWork)[0] == 'e' && KindName(RegressionWork)[0] == 'r';
    assert forall field :: field != WorkKindName ==>
             (field in p <==> field in snapshot) && (field in p ==> p[field] == snapshot[field]);
    assert forall field :: field != WorkKindName ==>
             (field in p' <==> field in snapshot') && (field in p' ==> p'[field] == snapshot'[field]);
    assert ShownKind(snapshot, kind) == if WorkKindName in p then Some(p[WorkKindName]) else None;
    assert ShownKind(snapshot', kind') == if WorkKindName in p' then Some(p'[WorkKindName]) else None;
    if SamePolicy(snapshot, kind, snapshot', kind') {
      assert forall field :: field in p <==> field in p';
      assert p == p';
    }
  }

  /** Without a field that poses as the work kind, sameness is equality of the policies and of the kinds. */
  lemma PlainPolicies(snapshot: Snapshot, kind: WorkKind, snapshot': Snapshot, kind': WorkKind)
    requires WorkKindName !in snapshot && WorkKindName !in snapshot'
    ensures SamePolicy(snapshot, kind, snapshot', kind') <==> snapshot == snapshot' && kind == kind'
  {
    assert "evaluation"[0] == 'e' && "regression"[0] == 'r';
    if SamePolicy(snapshot, kind, snapshot', kind') {
      assert forall field :: field in snapshot <==> field in snapshot';
      assert snapshot == snapshot';
    }
  }

  ghost predicate SameRequest(q: Submission, again: Submission) {
    again.input == q.input && SamePolicy(again.snapshot, again.kind, q.snapshot, q.kind)
  }

  lemma SameRequestIsSameHash(q: Submission, again: Submission)
    ensures SubmissionHash(again) == SubmissionHash(q) <==> SameRequest(q, again)
    ensures WorkKindName !in q.snapshot && WorkKindName !in again.snapshot ==>
              (SameRequest(q, again) <==> again.input == q.input && again.snapshot == q.snapshot && again.kind == q.kind)
  {
    HashedAlike(again.snapshot, again.kind, q.snapshot, q.kind);
    if WorkKindName !in q.snapshot && WorkKindName !in again.snapshot {
      PlainPolicies(again.snapshot, again.kind, q.snapshot, q.kind);
    }
  }

  /**
   Once a submission has been answered with a run, then after any further steps a submission on the
   same key is answered with that run if and only if it asks for the same, and with a conflict
   otherwise; it leaves the database as it is in both cases. To ask for the same is to agree in
   input, policy and kind, unless a policy has a field that poses as the work kind.
   */
  lemma RepeatedSubmission(c: Config, steps: seq<Step>, q: Submission, seen: Observed, more: seq<Step>, again: Submission, seen': Observed)
    requires ValidConfig(c) && !q.kind.EvaluationWork? && seen.now <= After(c, steps).clock
    requires CoversActive(After(c, steps), Effective(q.principal, q.client), q.client, seen)
    requires var a := SubmitTx(c, After(c, steps), q, seen).1; a.Created? || a.Existing?
    requires again.client == q.client && again.key == q.key
    ensures var (s1, a) := SubmitTx(c, After(c, steps), q, seen);
            var s2 := Execute(c, s1, more);
            && SubmitTx(c, s2, again, seen') == (s2, if SameRequest(q, again) then Existing(a.id) else Conflict)
            && (WorkKindName !in q.snapshot && WorkKindName !in again.snapshot ==>
                  (SameRequest(q, again) <==> again.input == q.input && again.snapshot == q.snapshot && again.kind == q.kind))
  {
    Reached(c, steps);
    var s := After(c, steps);
    SubmitKeeps(c, s, q, seen);
    var (s1, a) := SubmitTx(c, s, q, seen);
    KeyStaysBound(c, s1, more, a.id);
    SameRequestIsSameHash(q, again);
  }

  /** The same for replays: the bound run, a conflict, or no such source; never a second replay. */
  lemma RepeatedReplay(c: Config, steps: seq<Step>, q: ReplayRequest, seen: Observed, more: seq<Step>, again: ReplayRequest, seen': Observed)
    requires ValidConfig(c) && seen.now <= After(c, steps).clock
    requires CoversActive(After(c, steps), Effective(q.principal, q.client), q.client, seen)
    requires var a := ReplayTx(c, After(c, steps), q, seen).1; a.Created? || a.Existing?
    requires again.client == q.client && again.key == q.key
    ensures var (s1, a) := ReplayTx(c, After(c, steps), q, seen);
            var s2 := Execute(c, s1, more);
            var (s3, b) := ReplayTx(c, s2, again, seen');
            && s3 == s2
            && (again.source == q.source ==> b == Existing(a.id))
            && (again.source != q.source ==> b == Conflict || b == NotFound)
  {
    Reached(c, steps);
    var s := After(c, steps);
    ReplayKeeps(c, s, q, seen);
    var (s1, a) := ReplayTx(c, s, q, seen);
    AnsweredReplay(c, s, q, seen);
    KeyStaysBound(c, s1, more, a.id);
    ExecuteEvolves(c, s1, more, q.source);
  }

  /** The run a replay is answered with is bound to the request and to the source. */
  lemma AnsweredReplay(c: Config, s: State, q: ReplayRequest, seen: Observed)
    requires c.limits.windowSeconds > 0
    requires var a := ReplayTx(c, s, q, seen).1; a.Created? || a.Existing?
    ensures var (s1, a) := ReplayTx(c, s, q, seen);
            && q.source < |s1.entries| && s1.entries[q.source].accepted.client == q.client
            && s1.entries[q.source].accepted.kind.ExecutionWork?
            && a.id < |s1.entries|
            && s1.entries[a.id].accepted.client == q.client && s1.entries[a.id].accepted.key == q.key
            && s1.entries[a.id].accepted.replayOf == Some(q.source)
            && s1.entries[a.id].accepted.hash == ReplayHash(s1, q.source)
  {
  }

  // ---------------------------------------------------------------------------------------
  // The unique constraint's error path
  // ---------------------------------------------------------------------------------------

  /** What `submit` answers after an integrity error; `None` is "completed without a persisted run". */
  function AnswerAfterRace(s: State, q: Submission): Option<Answer> {
    var found := FindByKey(s.entries, q.client, q.key);
    if found.Some? then Some(MatchSubmission(s, found.value, SubmissionHash(q))) else None
  }

  /**
   Had a competing transaction inserted the key between this submission's lookup and its insert,
   the error path would answer just what a fresh, locked submission would, whatever happened since.
   */
  lemma RaceAnswersAlike(c: Config, steps: seq<Step>, more: seq<Step>, q: Submission, seen: Observed)
    requires ValidConfig(c) && FindByKey(After(c, steps).entries, q.client, q.key).Some?
    ensures var s := Execute(c, After(c, steps), more);
            && AnswerAfterRace(s, q) == Some(SubmitTx(c, s, q, seen).1)
            && AnswerAfterRace(s, q) == AnswerAfterRace(After(c, steps), q)
            && SubmitTx(c, s, q, seen).0 == s
  {
    Reached(c, steps);
    var s := After(c, steps);
    KeyStaysBound(c, s, more, FindByKey(s.entries, q.client, q.key).value);
  }

  // ---------------------------------------------------------------------------------------
  // Where a run's request comes from
  // ---------------------------------------------------------------------------------------

  /** A replay copies its source's input and policy, and its hash wraps them; other hashes are plain. */
  ghost predicate OriginOk(entries: seq<Entry>, a: Accepted) {
    match a.replayOf
    case Some(source) =>
      && source < |entries|
      && entries[source].accepted.client == a.client && entries[source].accepted.kind.ExecutionWork?
      && a.kind.ExecutionWork?
      && a.input == entries[source].accepted.input && a.snapshot == entries[source].accepted.snapshot
      && a.hash == Request(ReplayOf(source, a.input), a.snapshot)
    case None => a.kind.EvaluationWork? || a.hash == Request(a.input, HashedPolicy(a.snapshot, a.kind))
  }

  /** An evaluation job's input names the run that its record is about. */
  predicate NamesItsSource(e: Entry) {
    e.evaluation.Some? ==> e.accepted.input.RulesFor? && e.accepted.input.run == e.evaluation.value.source
  }

  ghost predicate OriginsOk(entries: seq<Entry>) {
    forall r :: 0 <= r < |entries| ==> OriginOk(entries, entries[r].accepted) && NamesItsSource(entries[r])
  }

  lemma StepOrigins(c: Config, s: State, step: Step)
    requires Inv(c, s) && OriginsOk(s.entries)
    ensures OriginsOk(Apply(c, s, step).entries)
  {
    var a, b := s.entries, Apply(c, s, step).entries;
    StepMoves(c, s, step);
    if step.Submit? || step.Replay? || step.Evaluate? {
      NewAccepted(c, s, step);
    } else {
      SameLength(c, s, step);
    }
    OriginsExtend(a, b);
  }

  lemma OriginsExtend(a: seq<Entry>, b: seq<Entry>)
    requires OriginsOk(a) && AllMove(a, b)
    requires |b| == |a| || (|b| == |a| + 1 && OriginOk(a, b[|a|].accepted) && NamesItsSource(b[|a|]))
    ensures OriginsOk(b)
  {
  }

  lemma NewAccepted(c: Config, s: State, step: Step)
    requires c.limits.windowSeconds > 0 && (step.Submit? || step.Replay? || step.Evaluate?)
    ensures var b := Apply(c, s, step).entries;
            || |b| == |s.entries|
            || (|b| == |s.entries| + 1 && OriginOk(s.entries, b[|s.entries|].accepted) && NamesItsSource(b[|s.entries|]))
  {
  }

  lemma {:induction false} OriginsFrom(c: Config, s: State, steps: seq<Step>)
    requires Inv(c, s) && OriginsOk(s.entries)
    ensures OriginsOk(Execute(c, s, steps).entries)
    decreases |steps|
  {
    if steps != [] {
      StepOrigins(c, s, steps[0]);
      StepKeeps(c, s, steps[0]);
      OriginsFrom(c, Apply(c, s, steps[0]), steps[1..]);
    }
  }

  /** Replays are faithful copies: same input, same policy, same client, an execution run as source. */
  lemma ReplaysCopyTheirSource(c: Config, steps: seq<Step>, r: nat)
    requires ValidConfig(c) && r < |After(c, steps).entries| && After(c, steps).entries[r].accepted.replayOf.Some?
    ensures var s := After(c, steps);
            var a := s.entries[r].accepted;
            && a.replayOf.value < |s.entries|
            && var b := s.entries[a.replayOf.value].accepted;
               a.input == b.input && a.snapshot == b.snapshot && a.client == b.client && b.kind.ExecutionWork?
  {
    InitialInv(c);
    OriginsFrom(c, INITIAL, steps);
    assert OriginOk(After(c, steps).entries, After(c, steps).entries[r].accepted);
  }

  /** The run that a job's input names is the run that its lifecycle record is about. */
  lemma JobNamesItsSource(c: Config, steps: seq<Step>, r: nat)
    requires ValidConfig(c) && r < |After(c, steps).entries| && After(c, steps).entries[r].accepted.kind.EvaluationWork?
    ensures var e := After(c, steps).entries[r];
            e.evaluation.Some? && e.accepted.input.RulesFor? && e.accepted.input.run == e.evaluation.value.source
  {
    InitialInv(c);
    OriginsFrom(c, INITIAL, steps);
    Reached(c, steps);
    assert EntryOk(c, After(c, steps).clock, After(c, steps).entries[r]) && NamesItsSource(After(c, steps).entries[r]);
  }

  /**
   A submission can be answered with a replay that holds its key, because the match compares
   only hashes. That happens exactly when the client submits the very document under which the
   replay was hashed, the source's id wrapped around the source's input, with the replay's policy.
   */
  lemma SubmissionMatchesReplayExactly(c: Config, steps: seq<Step>, q: Submission, seen: Observed, r: nat)
    requires ValidConfig(c) && r < |After(c, steps).entries| && After(c, steps).entries[r].accepted.replayOf.Some?
    requires After(c, steps).entries[r].accepted.client == q.client && After(c, steps).entries[r].accepted.key == q.key
    ensures var a := After(c, steps).entries[r].accepted;
            SubmitTx(c, After(c, steps), q, seen).1 == Existing(r) <==>
              q.input == ReplayOf(a.replayOf.value, a.input) && SamePolicy(q.snapshot, q.kind, a.snapshot, ExecutionWork)
  {
    Reached(c, steps);
    InitialInv(c);
    OriginsFrom(c, INITIAL, steps);
    var s := After(c, steps);
    assert OriginOk(s.entries, s.entries[r].accepted);
    FoundIs(s.entries, r);
    HashedAlike(q.snapshot, q.kind, s.entries[r].accepted.snapshot, ExecutionWork);
  }

  /** The run a replay is answered with replays the same source: its input, its policy, its client. */
  lemma ReplayMatchesOnlyReplays(c: Config, steps: seq<Step>, q: ReplayRequest, seen: Observed)
    requires ValidConfig(c) && ReplayTx(c, After(c, steps), q, seen).1.Existing?
    ensures var s := After(c, steps);
            var id := ReplayTx(c, s, q, seen).1.id;
            && id < |s.entries| && q.source < |s.entries|
            && var a, b := s.entries[id].accepted, s.entries[q.source].accepted;
               && a.replayOf == Some(q.source) && a.client == q.client == b.client && a.key == q.key
               && a.input == b.input && a.snapshot == b.snapshot && a.kind.ExecutionWork? && b.kind.ExecutionWork?
  {
    InitialInv(c);
    OriginsFrom(c, INITIAL, steps);
    var s := After(c, steps);
    var id := FindByKey(s.entries, q.client, q.key).value;
    assert OriginOk(s.entries, s.entries[id].accepted) && OriginOk(s.entries, s.entries[q.source].accepted);
  }

  /** What `replay` answers after an integrity error: it reads the source again, but not its kind. */
  function ReplayAfterRace(s: State, q: ReplayRequest): Option<Answer> {
    var found := FindByKey(s.entries, q.client, q.key);
    if found.None? then None
    else if !VisibleTo(s, q.source, q.client) then Some(NotFound)
    else Some(MatchReplay(s, found.value, ReplayHash(s, q.source), q.source))
  }

  /**
   A replay's error path answers what the locked lookup answers if and only if its source is not
   a job of another kind. Such a job's replay is refused before it inserts anything, so it never
   gets there; if it did, it would be told of a conflict and not of a missing run.
   */
  lemma ReplayRaceAnswersAlike(c: Config, steps: seq<Step>, more: seq<Step>, q: ReplayRequest, seen: Observed)
    requires ValidConfig(c) && FindByKey(After(c, steps).entries, q.client, q.key).Some?
    ensures var s := Execute(c, After(c, steps), more);
            && ReplayTx(c, s, q, seen).0 == s
            && (ReplayAfterRace(s, q) == Some(ReplayTx(c, s, q, seen).1) <==>
                  (VisibleTo(s, q.source, q.client) ==> s.entries[q.source].accepted.kind.ExecutionWork?))
            && (VisibleTo(s, q.source, q.client) && !s.entries[q.source].accepted.kind.ExecutionWork? ==>
                  ReplayTx(c, s, q, seen).1 == NotFound && ReplayAfterRace(s, q) == Some(Conflict))
            && (VisibleTo(After(c, steps), q.source, q.client) ==> ReplayAfterRace(s, q) == ReplayAfterRace(After(c, steps), q))
  {
    Reached(c, steps);
    var s0 := After(c, steps);
    var id := FindByKey(s0.entries, q.client, q.key).value;
    KeyStaysBound(c, s0, more, id);
    InitialInv(c);
    OriginsFrom(c, INITIAL, steps);
    OriginsFrom(c, s0, more);
    var s := Execute(c, s0, more);
    assert OriginOk(s.entries, s.entries[id].accepted);
    if VisibleTo(s0, q.source, q.client) {
      ExecuteEvolves(c, s0, more, q.source);
    }
  }
}
