/**
 The transactions of the services on the whole database, and the machine whose steps are
 those transactions, the broker's moves, crashes and the passing of time.
 */
module Protocol {
  import opened Domain
  import opened Retry
  import opened Tables
  import opened Transitions
  import opened EntryInvariant
  import Quota

  function Put(s: State, r: nat, e: Entry): State
    requires r < |s.entries|
  {
    s.(entries := s.entries[r := e])
  }

  function Epoch(s: State): int { s.clock.Floor }

  // ---------------------------------------------------------------------------------------
  // Evaluation records
  // ---------------------------------------------------------------------------------------

  /** `order by created_at desc, id desc` puts `a` before `b`. */
  predicate Newer(a: Evaluation, b: Evaluation) {
    a.createdAt > b.createdAt || (a.createdAt == b.createdAt && a.id > b.id)
  }

  predicate Evaluates(e: Entry, source: nat) {
    e.evaluation.Some? && e.evaluation.value.source == source
  }

  /** Job `j` carries the latest evaluation of its source. */
  predicate IsLatest(entries: seq<Entry>, j: nat)
    requires j < |entries| && entries[j].evaluation.Some?
  {
    forall k :: 0 <= k < |entries| && k != j && Evaluates(entries[k], entries[j].evaluation.value.source) ==>
      !Newer(entries[k].evaluation.value, entries[j].evaluation.value)
  }

  function ClosedEvaluation(e: Entry): Entry
    requires e.evaluation.Some?
  {
    e.(evaluation := Some(e.evaluation.value.(
         status := Verdict(e.run),
         result := if e.run.status.Succeeded? then e.run.result else e.evaluation.value.result,
         completedAt := e.run.completedAt)))
  }

  function MirroredSource(source: Entry, job: nat, status: EvaluationStatus, latest: bool): Entry {
    source.(evaluationStatus := if latest then status else source.evaluationStatus,
            events := source.events + [EvaluationChanged(job, status)])
  }

  /** `_finalize_evaluation_job`, once the run's rows are written. */
  function FinalizeEvaluation(s: State, r: nat): State
    requires r < |s.entries| && s.entries[r].evaluation.Some?
  {
    var closed := Put(s, r, ClosedEvaluation(s.entries[r]));
    var v := closed.entries[r].evaluation.value;
    if v.source >= |s.entries| then closed
    else Put(closed, v.source, MirroredSource(closed.entries[v.source], r, v.status, IsLatest(closed.entries, r)))
  }

  /** Writes the run's rows; a run that has just become terminal also settles its evaluation. */
  function WriteRows(s: State, r: nat, e: Entry): State
    requires r < |s.entries|
  {
    if !Terminal(e.run.status) || Terminal(s.entries[r].run.status) || !e.accepted.kind.EvaluationWork? then Put(s, r, e)
    else if e.evaluation.None? then s
    else FinalizeEvaluation(Put(s, r, e), r)
  }

  /** The error "Evaluation job has no lifecycle record", which rolls the transaction back. */
  predicate LacksRecord(e: Entry) {
    e.accepted.kind.EvaluationWork? && e.evaluation.None?
  }

  // ---------------------------------------------------------------------------------------
  // Execution service
  // ---------------------------------------------------------------------------------------

  function ClaimTx(c: Config, s: State, r: nat, worker: Ident, seen: Observed): (State, Decision) {
    if r >= |s.entries| then (s, Missing)
    else
      var (e, decision) := ClaimRows(c, s.entries[r], worker, seen);
      (WriteRows(s, r, e), decision)
  }

  function CompleteTx(s: State, r: nat, slot: nat, worker: Ident, now: Time, report: Report): (State, bool) {
    if r >= |s.entries| then (s, false)
    else
      var e := CompletedRows(s.entries[r], slot, worker, now, report);
      if e.None? then (s, false) else (WriteRows(s, r, e.value), true)
  }

  function RecoverTx(s: State, r: nat, now: Time): State {
    if r >= |s.entries| then s
    else
      var e := RecoveredRows(s.entries[r], now);
      if e.None? then s else WriteRows(s, r, e.value)
  }

  function ScheduleTx(s: State, r: nat, now: Time): State {
    if r < |s.entries| && RetryIsDue(s.entries[r], now) then Put(s, r, RequeuedRows(s.entries[r], s.clock)) else s
  }

  // ---------------------------------------------------------------------------------------
  // Run service
  // ---------------------------------------------------------------------------------------

  datatype Answer = Created(id: nat) | Existing(id: nat) | Conflict | OverQuota | NotFound | NotSucceeded | KeyTaken

  function Effective(principal: Option<Ident>, client: Ident): Ident {
    if principal.Some? then principal.value else client
  }

  function FindByKey(entries: seq<Entry>, client: Ident, key: nat): (found: Option<nat>)
    ensures found.Some? ==> found.value < |entries| &&
                            entries[found.value].accepted.client == client && entries[found.value].accepted.key == key
    ensures found.None? ==> forall i :: 0 <= i < |entries| ==> entries[i].accepted.client != client || entries[i].accepted.key != key
  {
    if entries == [] then None
    else
      var n := |entries| - 1;
      if entries[n].accepted.client == client && entries[n].accepted.key == key then Some(n)
      else FindByKey(entries[..n], client, key)
  }

  predicate Admitted(c: Config, s: State, principal: Ident, client: Ident, seen: Observed)
    requires c.limits.windowSeconds > 0
  {
    && seen.principal < c.principalActive
    && seen.tenant < c.tenantActive
    && Quota.WithinBudget(s.ledger.rows, c.limits, principal, client, seen.now.Floor)
  }

  datatype Submission = Submission(
    client: Ident, principal: Option<Ident>, kind: WorkKind, key: nat, input: Input, snapshot: Snapshot)

  function SubmissionHash(q: Submission): Request {
    Request(q.input, HashedPolicy(q.snapshot, q.kind))
  }

  function AcceptedSubmission(q: Submission): Accepted {
    Accepted(q.client, Effective(q.principal, q.client), q.kind, q.key, SubmissionHash(q), q.input, q.snapshot, None)
  }

  /** `_match_or_raise`. */
  function MatchSubmission(s: State, id: nat, hash: Request): Answer
    requires id < |s.entries|
  {
    if s.entries[id].accepted.hash == hash then Existing(id) else Conflict
  }

  function SubmitTx(c: Config, s: State, q: Submission, seen: Observed): (State, Answer)
    requires c.limits.windowSeconds > 0
  {
    var found := FindByKey(s.entries, q.client, q.key);
    if found.Some? then (s, MatchSubmission(s, found.value, SubmissionHash(q)))
    else if !Admitted(c, s, Effective(q.principal, q.client), q.client, seen) then (s, OverQuota)
    else (s.(entries := s.entries + [NewEntry(AcceptedSubmission(q), RunQueued, None, s.clock)]), Created(|s.entries|))
  }

  datatype ReplayRequest = ReplayRequest(client: Ident, principal: Option<Ident>, source: nat, key: nat)

  predicate VisibleTo(s: State, r: nat, client: Ident) {
    r < |s.entries| && s.entries[r].accepted.client == client
  }

  function ReplayHash(s: State, source: nat): Request
    requires source < |s.entries|
  {
    Request(ReplayOf(source, s.entries[source].accepted.input), s.entries[source].accepted.snapshot)
  }

  function AcceptedReplay(s: State, q: ReplayRequest): Accepted
    requires q.source < |s.entries|
  {
    var a := s.entries[q.source].accepted;
    Accepted(q.client, Effective(q.principal, q.client), ExecutionWork, q.key, ReplayHash(s, q.source), a.input, a.snapshot, Some(q.source))
  }

  /** `_match_replay_or_raise`. */
  function MatchReplay(s: State, id: nat, hash: Request, source: nat): Answer
    requires id < |s.entries|
  {
    if s.entries[id].accepted.hash == hash && s.entries[id].accepted.replayOf == Some(source) then Existing(id) else Conflict
  }

  function ReplayTx(c: Config, s: State, q: ReplayRequest, seen: Observed): (State, Answer)
    requires c.limits.windowSeconds > 0
  {
    if !VisibleTo(s, q.source, q.client) || !s.entries[q.source].accepted.kind.ExecutionWork? then (s, NotFound)
    else
      var found := FindByKey(s.entries, q.client, q.key);
      if found.Some? then (s, MatchReplay(s, found.value, ReplayHash(s, q.source), q.source))
      else if !Admitted(c, s, Effective(q.principal, q.client), q.client, seen) then (s, OverQuota)
      else
        var id := |s.entries|;
        var source := s.entries[q.source];
        var told := Put(s, q.source, source.(events := source.events + [ReplayCreated(id)]));
        (told.(entries := told.entries + [NewEntry(AcceptedReplay(s, q), RunReplayQueued(q.source), None, s.clock)]), Created(id))
  }

  /** `stamp` is the transaction's start, which the database stores as `created_at`. */
  datatype EvaluateRequest = EvaluateRequest(
    client: Ident, principal: Option<Ident>, source: nat, rules: nat, key: nat, id: Ident, stamp: Time)

  predicate Evaluable(e: Entry) {
    e.accepted.kind.ExecutionWork? && e.run.status.Succeeded? && e.run.result.Some?
  }

  predicate EvaluationIdTaken(entries: seq<Entry>, id: Ident) {
    exists k :: 0 <= k < |entries| && entries[k].evaluation.Some? && entries[k].evaluation.value.id == id
  }

  function AcceptedJob(c: Config, q: EvaluateRequest): Accepted {
    Accepted(q.client, Effective(q.principal, q.client), EvaluationWork, q.key,
             Request(RulesFor(q.source, q.rules), map[]), RulesFor(q.source, q.rules), JobPolicy(c), None)
  }

  function EvaluateTx(c: Config, s: State, q: EvaluateRequest, seen: Observed): (State, Answer)
    requires c.limits.windowSeconds > 0
  {
    if !VisibleTo(s, q.source, q.client) then (s, NotFound)
    else if !Evaluable(s.entries[q.source]) then (s, NotSucceeded)
    else if !Admitted(c, s, Effective(q.principal, q.client), q.client, seen) then (s, OverQuota)
    else if FindByKey(s.entries, q.client, q.key).Some? || EvaluationIdTaken(s.entries, q.id) then (s, KeyTaken)
    else
      var id := |s.entries|;
      var source := s.entries[q.source];
      var marked := Put(s, q.source, MirroredSource(source, id, Pending, true));
      var record := Evaluation(q.source, q.id, q.stamp, Pending, None, None);
      (marked.(entries := marked.entries + [NewEntry(AcceptedJob(c, q), RunQueued, Some(record), s.clock)]), Created(id))
  }

  // ---------------------------------------------------------------------------------------
  // Broker, worker and provider
  // ---------------------------------------------------------------------------------------

  function PublishTx(s: State, r: nat, row: nat, p: Publication): State {
    if r < |s.entries| && row < |s.entries[r].outbox| && s.entries[r].outbox[row].publishedAt.None?
    then Put(s, r, PublishedRows(s.entries[r], row, s.clock, p)) else s
  }

  function SetPhase(e: Entry, d: nat, phase: Phase, requeued: bool): Entry
    requires d < |e.deliveries|
  {
    e.(deliveries := e.deliveries[d := phase], queued := if requeued then e.queued + 1 else e.queued)
  }

  predicate DeliveredAs(s: State, r: nat, d: nat, phase: Phase) {
    r < |s.entries| && d < |s.entries[r].deliveries| && s.entries[r].deliveries[d] == phase
  }

  /** Two counts read under the identity locks never miss a run that is there now. */
  predicate CoversRunning(s: State, r: nat, seen: Observed) {
    && r < |s.entries|
    && seen.principal >= RunningIn(s.entries, Quota.PrincipalScope(s.entries[r].accepted.principal))
    && seen.tenant >= RunningIn(s.entries, Quota.TenantScope(s.entries[r].accepted.client))
  }

  predicate CoversActive(s: State, principal: Ident, client: Ident, seen: Observed) {
    && seen.principal >= ActiveIn(s.entries, Quota.PrincipalScope(principal))
    && seen.tenant >= ActiveIn(s.entries, Quota.TenantScope(client))
  }

  /**
   A worker's claim of run `r`, on the counts it has read. Its delivery `d` is decided with it,
   unless the broker has taken the delivery back in the meantime.
   */
  function ClaimAndDecide(c: Config, s: State, r: nat, d: nat, worker: Ident, seen: Observed): State {
    if r >= |s.entries| || LacksRecord(s.entries[r]) then s
    else
      var s1 := ClaimTx(c, s, r, worker, seen).0;
      if DeliveredAs(s1, r, d, Undecided) then Put(s1, r, SetPhase(s1.entries[r], d, Decided, false)) else s1
  }

  /** The claim goes by an instant at which the run was already waiting in the queue. */
  predicate SampledInQueue(s: State, r: nat, seen: Observed) {
    r < |s.entries| && s.entries[r].run.queuedAt <= seen.now <= s.clock
  }

  function ClaimDelivery(c: Config, s: State, r: nat, d: nat, worker: Ident, seen: Observed): State {
    if CoversRunning(s, r, seen) && SampledInQueue(s, r, seen) && seen.txStart <= s.clock
    then ClaimAndDecide(c, s, r, d, worker, seen) else s
  }

  function ChargeFor(s: State, r: nat, slot: nat, at: Time): Quota.Charge
    requires r < |s.entries|
  {
    Quota.Charge(s.entries[r].accepted.principal, s.entries[r].accepted.client, at.Floor, r, slot)
  }

  /** The quota was read at an instant no earlier than any charge that shares an identity lock. */
  predicate ReadInOrder(s: State, r: nat, slot: nat, at: Time) {
    r < |s.entries| && at <= s.clock && Quota.Follows(s.ledger.log, ChargeFor(s, r, slot, at))
  }

  /** The transaction of `ChargedExecutor.execute`. */
  function ChargeTx(c: Config, s: State, r: nat, slot: nat, worker: Ident, now: Time, at: Time): (State, bool)
    requires c.limits.windowSeconds > 0
  {
    if r >= |s.entries| || slot >= |s.entries[r].spending| || !WantsToPay(c, s.entries[r].accepted, s.entries[r].spending[slot]) ||
       !MayCharge(s.entries[r], slot, worker, now) then (s, false)
    else
      var x := s.entries[r].spending[slot];
      var (ledger, accepted) := Quota.TryCharge(s.ledger, c.limits, ChargeFor(s, r, slot, at));
      if accepted
      then (Put(s, r, WithExecutor(s.entries[r], slot, x.(charges := x.charges + 1, activity := Paid))).(ledger := ledger), true)
      else (s, false)
  }

  function SpendTx(c: Config, s: State, r: nat, slot: nat, action: Action): State
    requires c.limits.windowSeconds > 0
  {
    if r >= |s.entries| || slot >= |s.entries[r].spending| then s
    else if action.Pay? then ChargeTx(c, s, r, slot, action.worker, action.now, action.at).0
    else Put(s, r, WithExecutor(s.entries[r], slot, Moved(c, s.entries[r].accepted, s.entries[r].spending[slot], action)))
  }

  function DeliverTx(s: State, r: nat): State {
    if r < |s.entries| && s.entries[r].queued > 0
    then Put(s, r, s.entries[r].(queued := s.entries[r].queued - 1, deliveries := s.entries[r].deliveries + [Undecided]))
    else s
  }

  function SettleTx(s: State, r: nat, d: nat, requeue: bool): State {
    if DeliveredAs(s, r, d, Decided) then Put(s, r, SetPhase(s.entries[r], d, Closed, requeue)) else s
  }

  /** The broker loses its worker and puts the message back. */
  function CrashTx(s: State, r: nat, d: nat): State {
    if DeliveredAs(s, r, d, Undecided) || DeliveredAs(s, r, d, Decided)
    then Put(s, r, SetPhase(s.entries[r], d, Closed, true)) else s
  }

  // ---------------------------------------------------------------------------------------
  // The machine
  // ---------------------------------------------------------------------------------------

  datatype Step =
    | Tick(delta: Time)
    | Submit(submission: Submission, seen: Observed)
    | Replay(replay: ReplayRequest, seen: Observed)
    | Evaluate(evaluate: EvaluateRequest, seen: Observed)
    | Publish(r: nat, row: nat, publication: Publication)
    | Deliver(r: nat)
    | Claim(r: nat, d: nat, worker: Ident, seen: Observed)
    | Settle(r: nat, d: nat, requeue: bool)
    | Crash(r: nat, d: nat)
    | Complete(r: nat, slot: nat, worker: Ident, now: Time, report: Report)
    | Recover(r: nat, now: Time)
    | Schedule(r: nat, now: Time)
    | Spend(r: nat, slot: nat, action: Action)

  // A step whose guard fails changes nothing. Completions may come from anyone, at any time.

  function TickStep(s: State, delta: Time): State {
    if delta >= 0.0 then s.(clock := s.clock + delta) else s
  }

  function SubmitStep(c: Config, s: State, q: Submission, seen: Observed): State
    requires c.limits.windowSeconds > 0
  {
    if !q.kind.EvaluationWork? && seen.now <= s.clock && CoversActive(s, Effective(q.principal, q.client), q.client, seen)
    then SubmitTx(c, s, q, seen).0 else s
  }

  function ReplayStep(c: Config, s: State, q: ReplayRequest, seen: Observed): State
    requires c.limits.windowSeconds > 0
  {
    if seen.now <= s.clock && CoversActive(s, Effective(q.principal, q.client), q.client, seen) then ReplayTx(c, s, q, seen).0 else s
  }

  function EvaluateStep(c: Config, s: State, q: EvaluateRequest, seen: Observed): State
    requires c.limits.windowSeconds > 0
  {
    if q.stamp <= s.clock && seen.now <= s.clock && CoversActive(s, Effective(q.principal, q.client), q.client, seen)
    then EvaluateTx(c, s, q, seen).0 else s
  }

  function CompleteStep(s: State, r: nat, slot: nat, worker: Ident, now: Time, report: Report): State {
    if now <= s.clock && (r < |s.entries| && slot < |s.entries[r].attempts| ==> s.entries[r].attempts[slot].claimedAt <= now)
    then CompleteTx(s, r, slot, worker, now, report).0 else s
  }

  function RecoverStep(s: State, r: nat, now: Time): State {
    if now <= s.clock then RecoverTx(s, r, now) else s
  }

  function ScheduleStep(s: State, r: nat, now: Time): State {
    if now <= s.clock then ScheduleTx(s, r, now) else s
  }

  function SpendStep(c: Config, s: State, r: nat, slot: nat, action: Action): State
    requires c.limits.windowSeconds > 0
  {
    if action.Pay? && (action.now > s.clock || !ReadInOrder(s, r, slot, action.at)) then s else SpendTx(c, s, r, slot, action)
  }

  function Apply(c: Config, s: State, step: Step): State
    requires c.limits.windowSeconds > 0
  {
    match step
    case Tick(delta) => TickStep(s, delta)
    case Submit(q, seen) => SubmitStep(c, s, q, seen)
    case Replay(q, seen) => ReplayStep(c, s, q, seen)
    case Evaluate(q, seen) => EvaluateStep(c, s, q, seen)
    case Publish(r, row, p) => PublishTx(s, r, row, p)
    case Deliver(r) => DeliverTx(s, r)
    case Claim(r, d, worker, seen) => ClaimDelivery(c, s, r, d, worker, seen)
    case Settle(r, d, requeue) => SettleTx(s, r, d, requeue)
    case Crash(r, d) => CrashTx(s, r, d)
    case Complete(r, slot, worker, now, report) => CompleteStep(s, r, slot, worker, now, report)
    case Recover(r, now) => RecoverStep(s, r, now)
    case Schedule(r, now) => ScheduleStep(s, r, now)
    case Spend(r, slot, action) => SpendStep(c, s, r, slot, action)
  }

  function Execute(c: Config, s: State, steps: seq<Step>): State
    requires c.limits.windowSeconds > 0
    decreases |steps|
  {
    if steps == [] then s else Execute(c, Apply(c, s, steps[0]), steps[1..])
  }
}
