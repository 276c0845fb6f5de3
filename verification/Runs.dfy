/** The run service: accepting submissions, replays and evaluations, each in one transaction. */
module Runs {
  import opened Domain
  import opened Tables
  import opened Transitions
  import opened Protocol
  import opened Idempotency
  import Capacity
  import opened Liveness
  import opened Store
  import Quota

  function ExactActive(s: State, principal: Ident, client: Ident): Observed {
    Observed(s.clock, s.clock, ActiveIn(s.entries, Quota.PrincipalScope(principal)), ActiveIn(s.entries, Quota.TenantScope(client)))
  }

  // ---------------------------------------------------------------------------------------
  // Queries
  // ---------------------------------------------------------------------------------------

  method FindByIdempotencyKey(entries: seq<Entry>, client: Ident, key: nat) returns (found: Option<nat>)
    ensures found == FindByKey(entries, client, key)
  {
    found := None;
    for i := 0 to |entries|
      invariant found == FindByKey(entries[..i], client, key)
    {
      assert entries[..i + 1][..i] == entries[..i];
      if entries[i].accepted.client == client && entries[i].accepted.key == key {
        found := Some(i);
      }
    }
    assert entries[..|entries|] == entries;
  }

  /** `check_admission`: both active counts, then the advisory provider budget. */
  method CheckAdmission(c: Config, s: State, principal: Ident, client: Ident) returns (admitted: bool)
    requires c.limits.windowSeconds > 0
    ensures admitted == Admitted(c, s, principal, client, ExactActive(s, principal, client))
  {
    var active := CountActive(s.entries, Quota.PrincipalScope(principal));
    if active >= c.principalActive {
      return false;
    }
    active := CountActive(s.entries, Quota.TenantScope(client));
    if active >= c.tenantActive {
      return false;
    }
    return Quota.WithinBudget(s.ledger.rows, c.limits, principal, client, s.clock.Floor);
  }

  method EvaluationIdIsTaken(entries: seq<Entry>, id: Ident) returns (taken: bool)
    ensures taken == EvaluationIdTaken(entries, id)
  {
    taken := false;
    for i := 0 to |entries|
      invariant taken <==> exists k :: 0 <= k < i && entries[k].evaluation.Some? && entries[k].evaluation.value.id == id
    {
      if entries[i].evaluation.Some? && entries[i].evaluation.value.id == id {
        taken := true;
      }
    }
  }

  // ---------------------------------------------------------------------------------------
  // Within one session
  // ---------------------------------------------------------------------------------------

  method AddRun(s: State, accepted: Accepted, first: Event, evaluation: Option<Evaluation>) returns (next: State, id: nat)
    ensures next == s.(entries := s.entries + [NewEntry(accepted, first, evaluation, s.clock)]) && id == |s.entries|
  {
    var run := Run(Queued, None, None, None, None, None, None, None, s.clock);
    var entry := Entry(accepted, run, NotRun, [], [], [], [], 0, [], evaluation);
    entry := entry.(outbox := entry.outbox + [NewOutboxRow(QueueRun)]);
    entry := entry.(events := entry.events + [first]);
    assert entry.outbox == [NewOutboxRow(QueueRun)] && entry.events == [first];
    id := |s.entries|;
    next := s.(entries := s.entries + [entry]);
  }

  /**
   What an answer means for the store. Only a new run changes anything: it takes a free key, is
   queued, and comes with its own unpublished row. An existing run is one bound to the same request,
   and a conflict means that the key is bound to another.
   */
  ghost predicate Answered(s: State, s': State, answer: Answer, accepted: Accepted) {
    var found := FindByKey(s.entries, accepted.client, accepted.key);
    match answer
    case Created(id) =>
      && found.None? && id == |s.entries| && |s'.entries| == id + 1
      && s'.entries[id].accepted == accepted && s'.entries[id].outbox == [OutboxRow(QueueRun, None, 0, false)]
      && s'.entries[id].run == Run(Queued, None, None, None, None, None, None, None, s.clock) && s'.entries[id].attempts == []
      && forall k :: 0 <= k < id ==> s'.entries[k].run == s.entries[k].run && s'.entries[k].attempts == s.entries[k].attempts
    case Existing(id) =>
      && s' == s && found == Some(id)
      && s.entries[id].accepted.hash == accepted.hash && (accepted.replayOf.Some? ==> s.entries[id].accepted.replayOf == accepted.replayOf)
    case Conflict =>
      && s' == s && found.Some?
      && (|| s.entries[found.value].accepted.hash != accepted.hash
          || (accepted.replayOf.Some? && s.entries[found.value].accepted.replayOf != accepted.replayOf))
    case _ => s' == s
  }

  /** A stored digest is the request's own: of its input, its policy and its kind. */
  ghost predicate Digests(hash: Request, q: Submission) {
    hash.input == q.input && SamePolicy(q.snapshot, q.kind, hash.policy, ExecutionWork)
  }

  method SubmitRun(c: Config, s: State, q: Submission) returns (next: State, answer: Answer)
    requires c.limits.windowSeconds > 0
    ensures (next, answer) == SubmitTx(c, s, q, ExactActive(s, Effective(q.principal, q.client), q.client))
    ensures Answered(s, next, answer, AcceptedSubmission(q))
    ensures var found := FindByKey(s.entries, q.client, q.key);
            found.Some? ==> answer == if Digests(s.entries[found.value].accepted.hash, q) then Existing(found.value) else Conflict
  {
    var principal := Effective(q.principal, q.client);
    var hash := Request(q.input, HashedPolicy(q.snapshot, q.kind));
    var existing := FindByIdempotencyKey(s.entries, q.client, q.key);
    if existing.Some? {
      HashedAlike(q.snapshot, q.kind, s.entries[existing.value].accepted.hash.policy, ExecutionWork);
      if s.entries[existing.value].accepted.hash != hash {
        return s, Conflict;
      }
      return s, Existing(existing.value);
    }
    var admitted := CheckAdmission(c, s, principal, q.client);
    if !admitted {
      return s, OverQuota;
    }
    var accepted := Accepted(q.client, principal, q.kind, q.key, hash, q.input, q.snapshot, None);
    var id;
    next, id := AddRun(s, accepted, RunQueued, None);
    answer := Created(id);
  }

  method ReplayRun(c: Config, s: State, q: ReplayRequest) returns (next: State, answer: Answer)
    requires c.limits.windowSeconds > 0
    ensures (next, answer) == ReplayTx(c, s, q, ExactActive(s, Effective(q.principal, q.client), q.client))
    ensures answer == NotFound <==>
              !(q.source < |s.entries| && s.entries[q.source].accepted.client == q.client && s.entries[q.source].accepted.kind.ExecutionWork?)
    ensures answer.Created? ==>
              && q.source < answer.id < |next.entries| && next.entries[answer.id].events == [RunReplayQueued(q.source)]
              && next.entries[q.source].events == s.entries[q.source].events + [ReplayCreated(answer.id)]
    ensures answer == NotFound ==> next == s
    ensures answer != NotFound ==> Answered(s, next, answer, AcceptedReplay(s, q))
  {
    var principal := Effective(q.principal, q.client);
    if q.source >= |s.entries| || s.entries[q.source].accepted.client != q.client {
      return s, NotFound;
    }
    var source := s.entries[q.source];
    if !source.accepted.kind.ExecutionWork? {
      return s, NotFound;
    }
    var hash := Request(ReplayOf(q.source, source.accepted.input), source.accepted.snapshot);
    var existing := FindByIdempotencyKey(s.entries, q.client, q.key);
    if existing.Some? {
      var other := s.entries[existing.value].accepted;
      if other.hash != hash || other.replayOf != Some(q.source) {
        return s, Conflict;
      }
      return s, Existing(existing.value);
    }
    var admitted := CheckAdmission(c, s, principal, q.client);
    if !admitted {
      return s, OverQuota;
    }
    var accepted := Accepted(q.client, principal, ExecutionWork, q.key, hash, source.accepted.input, source.accepted.snapshot, Some(q.source));
    next := Put(s, q.source, source.(events := source.events + [ReplayCreated(|s.entries|)]));
    var id;
    next, id := AddRun(next, accepted, RunReplayQueued(q.source), None);
    answer := Created(id);
  }

  method EvaluateRun(c: Config, s: State, q: EvaluateRequest) returns (next: State, answer: Answer)
    requires c.limits.windowSeconds > 0
    ensures (next, answer) == EvaluateTx(c, s, q, ExactActive(s, Effective(q.principal, q.client), q.client))
    ensures Answered(s, next, answer, AcceptedJob(c, q))
    ensures answer == NotFound <==> !(q.source < |s.entries| && s.entries[q.source].accepted.client == q.client)
    ensures answer == NotSucceeded ==>
              q.source < |s.entries| &&
              !(s.entries[q.source].accepted.kind.ExecutionWork? && s.entries[q.source].run.status.Succeeded? && s.entries[q.source].run.result.Some?)
    ensures answer == KeyTaken ==>
              exists k :: 0 <= k < |s.entries| &&
                (|| (s.entries[k].accepted.client == q.client && s.entries[k].accepted.key == q.key)
                 || (s.entries[k].evaluation.Some? && s.entries[k].evaluation.value.id == q.id))
    ensures answer.Created? ==>
              && q.source < answer.id < |next.entries|
              && s.entries[q.source].accepted.kind.ExecutionWork? && s.entries[q.source].run.status.Succeeded? && s.entries[q.source].run.result.Some?
              && next.entries[q.source].evaluationStatus.Pending?
              && next.entries[q.source].events == s.entries[q.source].events + [EvaluationChanged(answer.id, Pending)]
              && next.entries[answer.id].evaluation == Some(Evaluation(q.source, q.id, q.stamp, Pending, None, None))
              && forall k :: 0 <= k < |s.entries| ==> s.entries[k].evaluation.Some? ==> s.entries[k].evaluation.value.id != q.id
  {
    var principal := Effective(q.principal, q.client);
    if q.source >= |s.entries| || s.entries[q.source].accepted.client != q.client {
      return s, NotFound;
    }
    var source := s.entries[q.source];
    if !source.accepted.kind.ExecutionWork? || !source.run.status.Succeeded? || source.run.result.None? {
      return s, NotSucceeded;
    }
    var admitted := CheckAdmission(c, s, principal, q.client);
    if !admitted {
      return s, OverQuota;
    }
    var clash := FindByIdempotencyKey(s.entries, q.client, q.key);
    var taken := EvaluationIdIsTaken(s.entries, q.id);
    if clash.Some? || taken {
      return s, KeyTaken;
    }
    var input := RulesFor(q.source, q.rules);
    var accepted := Accepted(q.client, principal, EvaluationWork, q.key, Request(input, map[]), input, JobPolicy(c), None);
    var record := Evaluation(q.source, q.id, q.stamp, Pending, None, None);
    source := source.(evaluationStatus := Pending);
    source := source.(events := source.events + [EvaluationChanged(|s.entries|, Pending)]);
    next := Put(s, q.source, source);
    var id;
    next, id := AddRun(next, accepted, RunQueued, Some(record));
    answer := Created(id);
  }

  // ---------------------------------------------------------------------------------------
  // The service
  // ---------------------------------------------------------------------------------------

  predicate KeyIsFree(s: State, client: Ident, key: nat) {
    forall k :: 0 <= k < |s.entries| ==> s.entries[k].accepted.client != client || s.entries[k].accepted.key != key
  }

  /** There is no room for another run of the principal, or of the client that acts for itself. */
  ghost predicate TurnedAway(c: Config, s: State, principal: Option<Ident>, client: Ident)
    requires c.limits.windowSeconds > 0
  {
    match principal
    case Some(id) => !Capacity.RoomFor(c, s, id, client)
    case None => !Capacity.RoomFor(c, s, client, client)
  }

  class RunService {
    const db: Database

    constructor (database: Database)
      ensures db == database
    {
      db := database;
    }

    /** `submit`, for the kinds that callers submit; evaluation jobs come from `evaluate` alone. */
    method Submit(q: Submission) returns (answer: Answer)
      requires db.Valid() && !q.kind.EvaluationWork?
      modifies db
      ensures db.Valid()
      ensures var seen := ExactActive(old(db.state), Effective(q.principal, q.client), q.client);
              && db.history == old(db.history) + [Step.Submit(q, seen)]
              && answer == SubmitTx(db.config, old(db.state), q, seen).1
      ensures answer == OverQuota <==> KeyIsFree(old(db.state), q.client, q.key) && TurnedAway(db.config, old(db.state), q.principal, q.client)
      ensures Answered(old(db.state), db.state, answer, AcceptedSubmission(q))
      ensures var s := old(db.state);
              var found := FindByKey(s.entries, q.client, q.key);
              found.Some? ==> answer == if Digests(s.entries[found.value].accepted.hash, q) then Existing(found.value) else Conflict
    {
      var next, made := SubmitRun(db.config, db.state, q);
      ghost var step := Step.Submit(q, ExactActive(db.state, Effective(q.principal, q.client), q.client));
      Capacity.AdmissionIsExact(db.config, db.history, Effective(q.principal, q.client), q.client, step.seen);
      One(db.config, db.state, step);
      db.Commit(next, [step]);
      return made;
    }

    method Replay(q: ReplayRequest) returns (answer: Answer)
      requires db.Valid()
      modifies db
      ensures db.Valid()
      ensures var seen := ExactActive(old(db.state), Effective(q.principal, q.client), q.client);
              && db.history == old(db.history) + [Step.Replay(q, seen)]
              && answer == ReplayTx(db.config, old(db.state), q, seen).1
      ensures answer == OverQuota ==> KeyIsFree(old(db.state), q.client, q.key) && TurnedAway(db.config, old(db.state), q.principal, q.client)
      ensures answer.Created? ==> !TurnedAway(db.config, old(db.state), q.principal, q.client)
      ensures answer == NotFound ==> db.state == old(db.state)
      ensures answer != NotFound ==> q.source < |old(db.state).entries| && Answered(old(db.state), db.state, answer, AcceptedReplay(old(db.state), q))
    {
      var next, made := ReplayRun(db.config, db.state, q);
      ghost var step := Step.Replay(q, ExactActive(db.state, Effective(q.principal, q.client), q.client));
      Capacity.AdmissionIsExact(db.config, db.history, Effective(q.principal, q.client), q.client, step.seen);
      One(db.config, db.state, step);
      db.Commit(next, [step]);
      return made;
    }

    method Evaluate(q: EvaluateRequest) returns (answer: Answer)
      requires db.Valid() && q.stamp <= db.state.clock
      modifies db
      ensures db.Valid()
      ensures var seen := ExactActive(old(db.state), Effective(q.principal, q.client), q.client);
              && db.history == old(db.history) + [Step.Evaluate(q, seen)]
              && answer == EvaluateTx(db.config, old(db.state), q, seen).1
      ensures answer == OverQuota ==> TurnedAway(db.config, old(db.state), q.principal, q.client)
      ensures answer.Created? || answer == KeyTaken ==> !TurnedAway(db.config, old(db.state), q.principal, q.client)
      ensures Answered(old(db.state), db.state, answer, AcceptedJob(db.config, q))
      ensures answer.Created? ==> q.source < |db.state.entries| && db.state.entries[q.source].evaluationStatus.Pending?
    {
      var next, made := EvaluateRun(db.config, db.state, q);
      ghost var step := Step.Evaluate(q, ExactActive(db.state, Effective(q.principal, q.client), q.client));
      Capacity.AdmissionIsExact(db.config, db.history, Effective(q.principal, q.client), q.client, step.seen);
      One(db.config, db.state, step);
      db.Commit(next, [step]);
      return made;
    }
  }
}
