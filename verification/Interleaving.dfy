/**
 Claims, creations and charges as the database sees them: a transaction takes its identity locks
 one at a time, locks a row, looks up its key, reads the clock, counts, reads attempts and quota
 counters, and commits what follows from its reads, with every other session and every other step
 in between. Reads are of committed data; only locks keep them true. The coarse machine, whose
 transactions are atomic, is shown to have all these behaviours.
 */
module Interleaving {
  import opened Domain
  import opened Tables
  import opened Transitions
  import opened Protocol
  import opened ProtocolInvariant
  import opened Evolution
  import opened Guarantees
  import opened Frames
  import opened Liveness
  import Quota

  // ---------------------------------------------------------------------------------------
  // What a step leaves alone
  // ---------------------------------------------------------------------------------------

  predicate Creates(step: Step) { step.Submit? || step.Replay? || step.Evaluate? }

  predicate CreatesFor(step: Step, scope: Quota.Scope) {
    match step
    case Submit(q, _) => scope == Quota.PrincipalScope(Effective(q.principal, q.client)) || scope == Quota.TenantScope(q.client)
    case Replay(q, _) => scope == Quota.PrincipalScope(Effective(q.principal, q.client)) || scope == Quota.TenantScope(q.client)
    case Evaluate(q, _) => scope == Quota.PrincipalScope(Effective(q.principal, q.client)) || scope == Quota.TenantScope(q.client)
    case _ => false
  }

  /** A charge for a run of the scope. */
  predicate PaysFor(db: State, step: Step, scope: Quota.Scope) {
    step.Spend? && step.action.Pay? && step.r < |db.entries| && In(db.entries[step.r], scope)
  }

  /** What a scope's counter and its charges are, as far as a session that holds its lock can tell. */
  ghost predicate SameAccount(l: Quota.Ledger, l': Quota.Ledger, scope: Quota.Scope) {
    && Quota.Stored(l'.rows, scope) == Quota.Stored(l.rows, scope)
    && |l.log| <= |l'.log| && (forall i :: 0 <= i < |l.log| ==> l'.log[i] == l.log[i])
    && forall i :: |l.log| <= i < |l'.log| ==> !Quota.Against(l'.log[i], scope)
  }

  lemma ChargeAccount(c: Config, s: State, r: nat, slot: nat, worker: Ident, now: Time, at: Time, scope: Quota.Scope)
    requires c.limits.windowSeconds > 0 && (r < |s.entries| ==> !In(s.entries[r], scope))
    ensures SameAccount(s.ledger, ChargeTx(c, s, r, slot, worker, now, at).0.ledger, scope)
  {
  }

  /** Only a charge for one of its own runs touches a scope's account. */
  lemma AccountFrame(c: Config, s: State, step: Step, scope: Quota.Scope)
    requires c.limits.windowSeconds > 0 && !PaysFor(s, step, scope)
    ensures SameAccount(s.ledger, Apply(c, s, step).ledger, scope)
  {
    if step.Spend? && step.action.Pay? {
      ChargeAccount(c, s, step.r, step.slot, step.action.worker, step.action.now, step.action.at, scope);
    } else {
      SameLedger(c, s, step);
    }
  }

  lemma SameLedger(c: Config, s: State, step: Step)
    requires c.limits.windowSeconds > 0 && !(step.Spend? && step.action.Pay?)
    ensures Apply(c, s, step).ledger == s.ledger
  {
  }

  /** Only a claim of the run itself sets it running. */
  lemma OnlyClaimsRun(c: Config, s: State, step: Step, k: nat)
    requires Inv(c, s) && k < |s.entries| && !s.entries[k].run.status.Running?
    requires !(step.Claim? && step.r == k)
    ensures k < |Apply(c, s, step).entries| && !Apply(c, s, step).entries[k].run.status.Running?
  {
    if !Writes(step, k) {
      RunFrame(c, s, step, k);
    } else if step.Complete? {
      assert CompletedRows(s.entries[k], step.slot, step.worker, step.now, step.report).None?;
    } else if step.Recover? {
      assert RecoveredRows(s.entries[k], step.now).None?;
    }
  }

  /** A creation adds at most one run, queued, in the scopes of its request. */
  lemma CreatedRun(c: Config, s: State, step: Step)
    requires c.limits.windowSeconds > 0 && Creates(step)
    ensures var b := Apply(c, s, step).entries;
            |b| == |s.entries| ||
            (&& |b| == |s.entries| + 1 && b[|s.entries|].run.status.Queued?
             && CreatesFor(step, Quota.PrincipalScope(b[|s.entries|].accepted.principal))
             && CreatesFor(step, Quota.TenantScope(b[|s.entries|].accepted.client))
             && forall scope :: In(b[|s.entries|], scope) ==> CreatesFor(step, scope))
  {
  }

  lemma {:induction false} RunningMonotone(a: seq<Entry>, b: seq<Entry>, scope: Quota.Scope)
    requires |a| <= |b|
    requires forall k :: 0 <= k < |a| && In(b[k], scope) && b[k].run.status.Running? ==> In(a[k], scope) && a[k].run.status.Running?
    requires forall k :: |a| <= k < |b| ==> !b[k].run.status.Running?
    ensures RunningIn(b, scope) <= RunningIn(a, scope)
    decreases |b|
  {
    if b != [] {
      var n := |b| - 1;
      if |a| == |b| {
        RunningMonotone(a[..n], b[..n], scope);
      } else {
        RunningMonotone(a, b[..n], scope);
      }
    }
  }

  lemma {:induction false} ActiveMonotone(a: seq<Entry>, b: seq<Entry>, scope: Quota.Scope)
    requires |a| <= |b|
    requires forall k :: 0 <= k < |a| && In(b[k], scope) && Active(b[k].run.status) ==> In(a[k], scope) && Active(a[k].run.status)
    requires forall k :: |a| <= k < |b| ==> !In(b[k], scope)
    ensures ActiveIn(b, scope) <= ActiveIn(a, scope)
    decreases |b|
  {
    if b != [] {
      var n := |b| - 1;
      if |a| == |b| {
        ActiveMonotone(a[..n], b[..n], scope);
      } else {
        ActiveMonotone(a, b[..n], scope);
      }
    }
  }

  lemma Growth(c: Config, s: State, step: Step)
    requires c.limits.windowSeconds > 0
    ensures var b := Apply(c, s, step).entries;
            && |s.entries| <= |b| <= |s.entries| + 1
            && (forall k :: |s.entries| <= k < |b| ==> b[k].run.status.Queued? && forall scope :: In(b[k], scope) ==> CreatesFor(step, scope))
  {
    if Creates(step) {
      CreatedRun(c, s, step);
    } else {
      SameLength(c, s, step);
    }
  }

  /** A scope's running count rises only by a claim of one of its own runs. */
  lemma RunningFrame(c: Config, s: State, step: Step, scope: Quota.Scope)
    requires Inv(c, s) && !(step.Claim? && step.r < |s.entries| && In(s.entries[step.r], scope))
    ensures RunningIn(Apply(c, s, step).entries, scope) <= RunningIn(s.entries, scope)
  {
    var a, b := s.entries, Apply(c, s, step).entries;
    Growth(c, s, step);
    StepMoves(c, s, step);
    forall k | 0 <= k < |a| && In(b[k], scope) && b[k].run.status.Running?
      ensures In(a[k], scope) && a[k].run.status.Running?
    {
      assert Moves(a[k], b[k]);
      if !a[k].run.status.Running? {
        OnlyClaimsRun(c, s, step, k);
      }
    }
    RunningMonotone(a, b, scope);
  }

  /** A scope's active count rises only by a creation in that scope. */
  lemma ActiveFrame(c: Config, s: State, step: Step, scope: Quota.Scope)
    requires Inv(c, s) && !CreatesFor(step, scope)
    ensures ActiveIn(Apply(c, s, step).entries, scope) <= ActiveIn(s.entries, scope)
  {
    var a, b := s.entries, Apply(c, s, step).entries;
    Growth(c, s, step);
    StepMoves(c, s, step);
    forall k | 0 <= k < |a| && In(b[k], scope) && Active(b[k].run.status)
      ensures In(a[k], scope) && Active(a[k].run.status)
    {
      assert Moves(a[k], b[k]);
    }
    ActiveMonotone(a, b, scope);
  }

  lemma {:induction false} SameFind(a: seq<Entry>, b: seq<Entry>, client: Ident, key: nat)
    requires |a| <= |b|
    requires forall k :: 0 <= k < |a| ==> b[k].accepted == a[k].accepted
    requires forall k :: |a| <= k < |b| ==> b[k].accepted.client != client
    ensures FindByKey(b, client, key) == FindByKey(a, client, key)
    decreases |b|
  {
    if b != [] {
      var n := |b| - 1;
      if |a| == |b| {
        SameFind(a[..n], b[..n], client, key);
      } else {
        SameFind(a, b[..n], client, key);
      }
    }
  }

  /** A client's keys change only by a creation for that client. */
  lemma KeyFrame(c: Config, s: State, step: Step, client: Ident, key: nat)
    requires Inv(c, s) && !CreatesFor(step, Quota.TenantScope(client))
    ensures FindByKey(Apply(c, s, step).entries, client, key) == FindByKey(s.entries, client, key)
  {
    var a, b := s.entries, Apply(c, s, step).entries;
    Growth(c, s, step);
    StepMoves(c, s, step);
    forall k | 0 <= k < |a| ensures b[k].accepted == a[k].accepted {
      assert Moves(a[k], b[k]);
    }
    forall k | |a| <= k < |b| ensures b[k].accepted.client != client {
      assert In(b[k], Quota.TenantScope(b[k].accepted.client));
    }
    SameFind(a, b, client, key);
  }

  // ---------------------------------------------------------------------------------------
  // Sessions
  // ---------------------------------------------------------------------------------------

  datatype Tx =
    | ClaimOf(r: nat, d: nat, worker: Ident)
    | SubmissionOf(submission: Submission)
    | ReplayOfRun(replay: ReplayRequest)
    | EvaluationOf(evaluate: EvaluateRequest)
    | ChargeOf(r: nat, slot: nat, worker: Ident)

  /**
   What a transaction has read: the locked run and the run with its key, the instant it goes by, the
   two counts, and last the run's attempts, both quota counters and the instant of reading them.
   */
  datatype View = View(
    run: Option<Run>, found: Option<nat>, now: Time,
    principal: nat, tenant: nat,
    attempts: seq<Attempt>, principalRow: Option<Quota.Row>, tenantRow: Option<Quota.Row>, at: Time)

  /** How far a transaction has come; it has made as many rounds of reads as `round` says. */
  datatype Stage =
    | Begun
    | HoldsPrincipal
    | HoldsBoth
    | Reading(round: nat, view: View)
    | Done

  const LAST_ROUND := 4

  datatype Session = Session(tx: Tx, txStart: Time, stage: Stage)

  datatype World = World(db: State, sessions: seq<Session>)

  /** The run whose row a transaction locks, if any. */
  function RowOf(tx: Tx): Option<nat> {
    match tx
    case ClaimOf(r, _, _) => Some(r)
    case EvaluationOf(q) => Some(q.source)
    case ChargeOf(r, _, _) => Some(r)
    case _ => None
  }

  /** A request that names a run the database does not have ends before it waits for anything. */
  predicate Exists(db: State, tx: Tx) { RowOf(tx).Some? ==> RowOf(tx).value < |db.entries| }

  function PrincipalOf(db: State, tx: Tx): Quota.Scope
    requires Exists(db, tx)
  {
    match tx
    case ClaimOf(r, _, _) => Quota.PrincipalScope(db.entries[r].accepted.principal)
    case SubmissionOf(q) => Quota.PrincipalScope(Effective(q.principal, q.client))
    case ReplayOfRun(q) => Quota.PrincipalScope(Effective(q.principal, q.client))
    case EvaluationOf(q) => Quota.PrincipalScope(Effective(q.principal, q.client))
    case ChargeOf(r, _, _) => Quota.PrincipalScope(db.entries[r].accepted.principal)
  }

  function TenantOf(db: State, tx: Tx): Quota.Scope
    requires Exists(db, tx)
  {
    match tx
    case ClaimOf(r, _, _) => Quota.TenantScope(db.entries[r].accepted.client)
    case SubmissionOf(q) => Quota.TenantScope(q.client)
    case ReplayOfRun(q) => Quota.TenantScope(q.client)
    case EvaluationOf(q) => Quota.TenantScope(q.client)
    case ChargeOf(r, _, _) => Quota.TenantScope(db.entries[r].accepted.client)
  }

  /** The advisory locks a session holds. */
  predicate Holds(db: State, x: Session, scope: Quota.Scope)
    requires Exists(db, x.tx)
  {
    || (x.stage != Begun && x.stage != Done && scope == PrincipalOf(db, x.tx))
    || ((x.stage.HoldsBoth? || x.stage.Reading?) && scope == TenantOf(db, x.tx))
  }

  predicate HoldsRow(x: Session, k: nat) {
    RowOf(x.tx) == Some(k) && x.stage.Reading?
  }

  predicate FreeFor(w: World, i: nat, scope: Quota.Scope)
    requires forall j :: 0 <= j < |w.sessions| ==> Exists(w.db, w.sessions[j].tx)
  {
    forall j :: 0 <= j < |w.sessions| && j != i ==> !Holds(w.db, w.sessions[j], scope)
  }

  predicate RowFreeFor(w: World, i: int, k: nat) {
    forall j :: 0 <= j < |w.sessions| && j != i ==> !HoldsRow(w.sessions[j], k)
  }

  function KeyOf(tx: Tx): Option<(Ident, nat)> {
    match tx
    case SubmissionOf(q) => Some((q.client, q.key))
    case ReplayOfRun(q) => Some((q.client, q.key))
    case EvaluationOf(q) => Some((q.client, q.key))
    case _ => None
  }

  function Lookup(db: State, tx: Tx): Option<nat> {
    var key := KeyOf(tx);
    if key.Some? then FindByKey(db.entries, key.value.0, key.value.1) else None
  }

  function ReadRun(db: State, tx: Tx): Option<Run> {
    var row := RowOf(tx);
    if row.Some? && row.value < |db.entries| then Some(db.entries[row.value].run) else None
  }

  function ReadAttempts(db: State, tx: Tx): seq<Attempt> {
    var row := RowOf(tx);
    if row.Some? && row.value < |db.entries| then db.entries[row.value].attempts else []
  }

  /** The count a transaction compares with its limit; a charge counts nothing. */
  function CountFor(db: State, tx: Tx, scope: Quota.Scope): nat {
    if tx.ClaimOf? then RunningIn(db.entries, scope) else if tx.ChargeOf? then 0 else ActiveIn(db.entries, scope)
  }

  // ---------------------------------------------------------------------------------------
  // Commits, from what was read
  // ---------------------------------------------------------------------------------------

  /** The row and the attempts that were read, with the histories that a commit only adds to. */
  function AsRead(e: Entry, view: View): Entry {
    e.(run := if view.run.Some? then view.run.value else e.run, attempts := view.attempts)
  }

  function CommitClaim(c: Config, db: State, tx: Tx, txStart: Time, view: View): State
    requires tx.ClaimOf?
  {
    if tx.r >= |db.entries| || LacksRecord(db.entries[tx.r]) then db
    else
      var seen := Observed(txStart, view.now, view.principal, view.tenant);
      var s1 := WriteRows(db, tx.r, ClaimRows(c, AsRead(db.entries[tx.r], view), tx.worker, seen).0);
      if DeliveredAs(s1, tx.r, tx.d, Undecided) then Put(s1, tx.r, SetPhase(s1.entries[tx.r], tx.d, Decided, false)) else s1
  }

  predicate AdmittedOn(c: Config, view: View)
    requires c.limits.windowSeconds > 0
  {
    && view.principal < c.principalActive
    && view.tenant < c.tenantActive
    && Quota.RowsAllow(c.limits, view.principalRow, view.tenantRow, view.at.Floor)
  }

  /** The unique constraint on keys sees the present table; a violation rolls the transaction back. */
  predicate ViolatesKey(db: State, accepted: Accepted) {
    FindByKey(db.entries, accepted.client, accepted.key).Some?
  }

  function CommitSubmission(c: Config, db: State, q: Submission, view: View): State
    requires c.limits.windowSeconds > 0
  {
    if view.found.Some? || !AdmittedOn(c, view) || ViolatesKey(db, AcceptedSubmission(q)) then db
    else db.(entries := db.entries + [NewEntry(AcceptedSubmission(q), RunQueued, None, db.clock)])
  }

  function CommitReplay(c: Config, db: State, q: ReplayRequest, view: View): State
    requires c.limits.windowSeconds > 0
  {
    if !VisibleTo(db, q.source, q.client) || !db.entries[q.source].accepted.kind.ExecutionWork? || view.found.Some? ||
       !AdmittedOn(c, view) || ViolatesKey(db, AcceptedReplay(db, q)) then db
    else
      var source := db.entries[q.source];
      var told := Put(db, q.source, source.(events := source.events + [ReplayCreated(|db.entries|)]));
      told.(entries := told.entries + [NewEntry(AcceptedReplay(db, q), RunReplayQueued(q.source), None, db.clock)])
  }

  function CommitEvaluation(c: Config, db: State, q: EvaluateRequest, view: View): State
    requires c.limits.windowSeconds > 0
  {
    if !VisibleTo(db, q.source, q.client) || !Evaluable(AsRead(db.entries[q.source], view)) || !AdmittedOn(c, view) ||
       ViolatesKey(db, AcceptedJob(c, q)) || EvaluationIdTaken(db.entries, q.id) then db
    else
      var marked := Put(db, q.source, MirroredSource(db.entries[q.source], |db.entries|, Pending, true));
      var record := Evaluation(q.source, q.id, q.stamp, Pending, None, None);
      marked.(entries := marked.entries + [NewEntry(AcceptedJob(c, q), RunQueued, Some(record), db.clock)])
  }

  /** The executor's own state is in its memory; fence and counters are what was read. */
  function CommitCharge(c: Config, db: State, tx: Tx, view: View): State
    requires c.limits.windowSeconds > 0 && tx.ChargeOf?
  {
    var r, slot := tx.r, tx.slot;
    if r >= |db.entries| || slot >= |db.entries[r].spending| || !WantsToPay(c, db.entries[r].accepted, db.entries[r].spending[slot]) ||
       !MayCharge(AsRead(db.entries[r], view), slot, tx.worker, view.now) ||
       !Quota.RowsAllow(c.limits, view.principalRow, view.tenantRow, view.at.Floor) then db
    else
      var x, charge := db.entries[r].spending[slot], ChargeFor(db, r, slot, view.at);
      var rows := Quota.Overwritten(db.ledger.rows, c.limits, charge, view.principalRow, view.tenantRow);
      Put(db, r, WithExecutor(db.entries[r], slot, x.(charges := x.charges + 1, activity := Paid)))
        .(ledger := Quota.Ledger(rows, db.ledger.log + [charge]))
  }

  /** What the commit does to the database, given what the session has read. */
  function Commit(c: Config, db: State, x: Session): State
    requires c.limits.windowSeconds > 0 && x.stage.Reading?
  {
    match x.tx
    case ClaimOf(_, _, _) => CommitClaim(c, db, x.tx, x.txStart, x.stage.view)
    case SubmissionOf(q) => CommitSubmission(c, db, q, x.stage.view)
    case ReplayOfRun(q) => CommitReplay(c, db, q, x.stage.view)
    case EvaluationOf(q) => CommitEvaluation(c, db, q.(stamp := x.txStart), x.stage.view)
    case ChargeOf(_, _, _) => CommitCharge(c, db, x.tx, x.stage.view)
  }

  /** The atomic step that reads the present database, at the session's instants and counts. */
  function CommitStep(x: Session): Step
    requires x.stage.Reading?
  {
    var view := x.stage.view;
    var seen := Observed(x.txStart, view.at, view.principal, view.tenant);
    match x.tx
    case ClaimOf(r, d, worker) => Claim(r, d, worker, seen.(now := view.now))
    case SubmissionOf(q) => Submit(q, seen)
    case ReplayOfRun(q) => Replay(q, seen)
    case EvaluationOf(q) => Evaluate(q.(stamp := x.txStart), seen)
    case ChargeOf(r, slot, worker) => Spend(r, slot, Pay(worker, view.now, view.at))
  }

  // ---------------------------------------------------------------------------------------
  // The fine machine
  // ---------------------------------------------------------------------------------------

  datatype FineStep =
    | Begin(tx: Tx)
    | Advance(i: nat)
    | Rollback(i: nat)
    | Other(step: Step)

  ghost predicate WellFormed(w: World) {
    forall j :: 0 <= j < |w.sessions| ==> Exists(w.db, w.sessions[j].tx)
  }

  function SetStage(w: World, i: nat, stage: Stage): World
    requires i < |w.sessions|
  {
    w.(sessions := w.sessions[i := w.sessions[i].(stage := stage)])
  }

  /** The first round: the row is locked, and the clock is read. */
  function FirstReads(db: State, tx: Tx): View {
    View(ReadRun(db, tx), Lookup(db, tx), db.clock, 0, 0, [], None, None, db.clock)
  }

  /** The later rounds: one count, the other, then attempts and counters. */
  function MoreReads(db: State, tx: Tx, round: nat, view: View): View
    requires Exists(db, tx)
  {
    if round == 1 then view.(principal := CountFor(db, tx, PrincipalOf(db, tx)))
    else if round == 2 then view.(tenant := CountFor(db, tx, TenantOf(db, tx)))
    else view.(attempts := ReadAttempts(db, tx),
                principalRow := Quota.Stored(db.ledger.rows, PrincipalOf(db, tx)),
                tenantRow := Quota.Stored(db.ledger.rows, TenantOf(db, tx)),
                at := db.clock)
  }

  /** One more round of reads. */
  function ReadMore(w: World, i: nat): World
    requires i < |w.sessions| && WellFormed(w) && w.sessions[i].stage.Reading?
  {
    var x := w.sessions[i];
    SetStage(w, i, Reading(x.stage.round + 1, MoreReads(w.db, x.tx, x.stage.round, x.stage.view)))
  }

  /** One session takes its next lock, reads, or commits; a lock that is taken makes it wait. */
  ghost function AdvanceSession(c: Config, w: World, i: nat): World
    requires c.limits.windowSeconds > 0 && i < |w.sessions| && WellFormed(w)
  {
    var x := w.sessions[i];
    match x.stage
    case Begun => if FreeFor(w, i, PrincipalOf(w.db, x.tx)) then SetStage(w, i, HoldsPrincipal) else w
    case HoldsPrincipal => if FreeFor(w, i, TenantOf(w.db, x.tx)) then SetStage(w, i, HoldsBoth) else w
    case HoldsBoth =>
      if RowOf(x.tx).Some? && !RowFreeFor(w, i, RowOf(x.tx).value) then w
      else SetStage(w, i, Reading(1, FirstReads(w.db, x.tx)))
    case Reading(round, _) =>
      if round < LAST_ROUND then ReadMore(w, i)
      else SetStage(w, i, Done).(db := Commit(c, w.db, x))
    case Done => w
  }

  /** The other transactions wait for, or skip, locked rows. */
  ghost predicate MayRun(w: World, step: Step)
    requires WellFormed(w)
  {
    && !Creates(step) && !step.Claim? && !(step.Spend? && step.action.Pay?)
    && forall k: nat :: Writes(step, k) ==> RowFreeFor(w, -1, k)
  }

  ghost function FineApply(c: Config, w: World, step: FineStep): World
    requires c.limits.windowSeconds > 0 && WellFormed(w)
  {
    match step
    case Begin(tx) =>
      if Exists(w.db, tx) && (tx.SubmissionOf? ==> !tx.submission.kind.EvaluationWork?)
      then w.(sessions := w.sessions + [Session(tx, w.db.clock, Begun)]) else w
    case Advance(i) => if i < |w.sessions| then AdvanceSession(c, w, i) else w
    case Rollback(i) => if i < |w.sessions| then SetStage(w, i, Done) else w
    case Other(step) => if MayRun(w, step) then w.(db := Apply(c, w.db, step)) else w
  }

  // ---------------------------------------------------------------------------------------
  // What locks keep true
  // ---------------------------------------------------------------------------------------

  /** Every charge against the scope is dated no later than the instant. */
  ghost predicate DatedBy(log: seq<Quota.Charge>, scope: Quota.Scope, at: Time) {
    forall i :: 0 <= i < |log| && Quota.Against(log[i], scope) ==> log[i].epoch <= at.Floor
  }

  ghost predicate RowReadOk(db: State, tx: Tx, view: View) {
    && view.run == ReadRun(db, tx) && view.found == Lookup(db, tx) && view.now <= db.clock
    && (tx.ClaimOf? && view.run.Some? ==> view.run.value.queuedAt <= view.now)
  }

  ghost predicate AccountReadOk(db: State, row: Option<Quota.Row>, scope: Quota.Scope, at: Time) {
    row == Quota.Stored(db.ledger.rows, scope) && DatedBy(db.ledger.log, scope, at)
  }

  ghost predicate LastReadOk(db: State, tx: Tx, view: View)
    requires Exists(db, tx)
  {
    && view.attempts == ReadAttempts(db, tx) && view.at <= db.clock
    && AccountReadOk(db, view.principalRow, PrincipalOf(db, tx), view.at)
    && AccountReadOk(db, view.tenantRow, TenantOf(db, tx), view.at)
  }

  /** What a transaction has read still holds: rows are the same, counts can only have become too high. */
  ghost predicate ReadsOk(db: State, tx: Tx, round: nat, view: View)
    requires Exists(db, tx)
  {
    && 1 <= round <= LAST_ROUND
    && RowReadOk(db, tx, view)
    && (round >= 2 ==> view.principal >= CountFor(db, tx, PrincipalOf(db, tx)))
    && (round >= 3 ==> view.tenant >= CountFor(db, tx, TenantOf(db, tx)))
    && (round >= 4 ==> LastReadOk(db, tx, view))
  }

  ghost predicate SessionOk(db: State, x: Session) {
    && Exists(db, x.tx)
    && x.txStart <= db.clock
    && (x.tx.SubmissionOf? ==> !x.tx.submission.kind.EvaluationWork?)
    && (x.stage.Reading? ==> ReadsOk(db, x.tx, x.stage.round, x.stage.view))
  }

  ghost predicate Exclusive(w: World, i: nat, j: nat)
    requires WellFormed(w) && i < |w.sessions| && j < |w.sessions|
  {
    && (forall scope :: !(Holds(w.db, w.sessions[i], scope) && Holds(w.db, w.sessions[j], scope)))
    && (forall k: nat :: !(HoldsRow(w.sessions[i], k) && HoldsRow(w.sessions[j], k)))
  }

  ghost predicate WorldInv(c: Config, w: World) {
    && Inv(c, w.db)
    && (forall i :: 0 <= i < |w.sessions| ==> SessionOk(w.db, w.sessions[i]))
    && WellFormed(w)
    && (forall i, j :: 0 <= i < j < |w.sessions| ==> Exclusive(w, i, j))
  }

  /** A step that neither claims, creates nor charges in the scope. */
  ghost predicate Spares(db: State, step: Step, scope: Quota.Scope) {
    && !(step.Claim? && step.r < |db.entries| && In(db.entries[step.r], scope))
    && !CreatesFor(step, scope)
    && !PaysFor(db, step, scope)
  }

  /** A step of the database that respects a session's locks leaves its reads valid. */
  ghost predicate Respects(db: State, x: Session, step: Step)
    requires Exists(db, x.tx)
  {
    && (forall scope :: Holds(db, x, scope) ==> Spares(db, step, scope))
    && (forall k: nat :: HoldsRow(x, k) ==> !Writes(step, k))
  }

  /** Identities never change, so neither do the locks that a session holds. */
  lemma SameScopes(c: Config, db: State, step: Step, x: Session)
    requires Inv(c, db) && Exists(db, x.tx)
    ensures var db' := Apply(c, db, step);
            && Exists(db', x.tx) && PrincipalOf(db', x.tx) == PrincipalOf(db, x.tx) && TenantOf(db', x.tx) == TenantOf(db, x.tx)
            && forall scope :: Holds(db', x, scope) <==> Holds(db, x, scope)
  {
    SameIdentity(c, db, step, x.tx);
  }

  lemma SameIdentity(c: Config, db: State, step: Step, tx: Tx)
    requires Inv(c, db) && Exists(db, tx)
    ensures var db' := Apply(c, db, step);
            Exists(db', tx) && PrincipalOf(db', tx) == PrincipalOf(db, tx) && TenantOf(db', tx) == TenantOf(db, tx)
  {
    StepMoves(c, db, step);
    if RowOf(tx).Some? {
      assert Moves(db.entries[RowOf(tx).value], Apply(c, db, step).entries[RowOf(tx).value]);
    }
  }

  lemma CountFrame(c: Config, db: State, step: Step, tx: Tx, scope: Quota.Scope)
    requires Inv(c, db) && Spares(db, step, scope)
    ensures CountFor(Apply(c, db, step), tx, scope) <= CountFor(db, tx, scope)
  {
    if tx.ClaimOf? {
      RunningFrame(c, db, step, scope);
    } else if !tx.ChargeOf? {
      ActiveFrame(c, db, step, scope);
    }
  }

  /** A locked row and its attempts, and a key under its tenant's lock, are still what was read. */
  lemma RowFrame(c: Config, db: State, step: Step, tx: Tx)
    requires Inv(c, db) && Exists(db, tx)
    requires RowOf(tx).Some? ==> !Writes(step, RowOf(tx).value)
    requires KeyOf(tx).Some? ==> !CreatesFor(step, Quota.TenantScope(KeyOf(tx).value.0))
    ensures var db' := Apply(c, db, step);
            Lookup(db', tx) == Lookup(db, tx) && ReadRun(db', tx) == ReadRun(db, tx) && ReadAttempts(db', tx) == ReadAttempts(db, tx)
  {
    if KeyOf(tx).Some? {
      KeyFrame(c, db, step, KeyOf(tx).value.0, KeyOf(tx).value.1);
    }
    if RowOf(tx).Some? {
      RunFrame(c, db, step, RowOf(tx).value);
    }
  }

  lemma AccountViewFrame(c: Config, db: State, step: Step, row: Option<Quota.Row>, scope: Quota.Scope, at: Time)
    requires c.limits.windowSeconds > 0 && Spares(db, step, scope) && AccountReadOk(db, row, scope, at)
    ensures AccountReadOk(Apply(c, db, step), row, scope, at)
  {
    AccountFrame(c, db, step, scope);
    var log, log' := db.ledger.log, Apply(c, db, step).ledger.log;
    forall i | 0 <= i < |log'| && Quota.Against(log'[i], scope) ensures log'[i].epoch <= at.Floor {
      assert log'[i] == log[i];
    }
  }

  /** Whoever reads holds both identity locks and its row lock. */
  lemma ReadersAreSpared(db: State, x: Session, step: Step)
    requires Exists(db, x.tx) && x.stage.Reading? && Respects(db, x, step)
    ensures Spares(db, step, PrincipalOf(db, x.tx)) && Spares(db, step, TenantOf(db, x.tx))
    ensures RowOf(x.tx).Some? ==> !Writes(step, RowOf(x.tx).value)
    ensures KeyOf(x.tx).Some? ==> !CreatesFor(step, Quota.TenantScope(KeyOf(x.tx).value.0))
  {
    assert Holds(db, x, PrincipalOf(db, x.tx)) && Holds(db, x, TenantOf(db, x.tx));
    if RowOf(x.tx).Some? {
      assert HoldsRow(x, RowOf(x.tx).value);
    }
  }

  /** What was read still holds after a change that keeps the rows read and raises no count. */
  lemma ViewStays(db: State, db': State, tx: Tx, round: nat, view: View)
    requires Exists(db, tx) && Exists(db', tx) && db.clock <= db'.clock
    requires PrincipalOf(db', tx) == PrincipalOf(db, tx) && TenantOf(db', tx) == TenantOf(db, tx)
    requires CountFor(db', tx, PrincipalOf(db, tx)) <= CountFor(db, tx, PrincipalOf(db, tx))
    requires CountFor(db', tx, TenantOf(db, tx)) <= CountFor(db, tx, TenantOf(db, tx))
    requires ReadAttempts(db', tx) == ReadAttempts(db, tx) && RowReadOk(db', tx, view)
    requires round >= 4 ==>
               AccountReadOk(db', view.principalRow, PrincipalOf(db, tx), view.at) && AccountReadOk(db', view.tenantRow, TenantOf(db, tx), view.at)
    ensures ReadsOk(db, tx, round, view) ==> ReadsOk(db', tx, round, view)
  {
  }

  lemma RowViewFrame(c: Config, db: State, step: Step, tx: Tx, view: View)
    requires Inv(c, db) && Exists(db, tx)
    requires RowOf(tx).Some? ==> !Writes(step, RowOf(tx).value)
    requires KeyOf(tx).Some? ==> !CreatesFor(step, Quota.TenantScope(KeyOf(tx).value.0))
    ensures RowReadOk(db, tx, view) ==> RowReadOk(Apply(c, db, step), tx, view)
    ensures ReadAttempts(Apply(c, db, step), tx) == ReadAttempts(db, tx) && db.clock <= Apply(c, db, step).clock
  {
    ClockForward(c, db, step);
    RowFrame(c, db, step, tx);
  }

  lemma ReadingFrame(c: Config, db: State, step: Step, x: Session)
    requires Inv(c, db) && SessionOk(db, x) && Respects(db, x, step) && x.stage.Reading?
    ensures Exists(Apply(c, db, step), x.tx) && ReadsOk(Apply(c, db, step), x.tx, x.stage.round, x.stage.view)
  {
    var p, t := PrincipalOf(db, x.tx), TenantOf(db, x.tx);
    ReadersAreSpared(db, x, step);
    SameIdentity(c, db, step, x.tx);
    RowViewFrame(c, db, step, x.tx, x.stage.view);
    CountFrame(c, db, step, x.tx, p);
    CountFrame(c, db, step, x.tx, t);
    if x.stage.round >= 4 {
      AccountViewFrame(c, db, step, x.stage.view.principalRow, p, x.stage.view.at);
      AccountViewFrame(c, db, step, x.stage.view.tenantRow, t, x.stage.view.at);
    }
    ViewStays(db, Apply(c, db, step), x.tx, x.stage.round, x.stage.view);
  }

  lemma SessionFrame(c: Config, db: State, step: Step, x: Session)
    requires Inv(c, db) && SessionOk(db, x) && Respects(db, x, step)
    ensures SessionOk(Apply(c, db, step), x)
  {
    SameScopes(c, db, step, x);
    ClockForward(c, db, step);
    if x.stage.Reading? {
      ReadingFrame(c, db, step, x);
    }
  }

  /** If a database step respects everyone's locks, the world's invariant survives it. */
  lemma DatabaseStepKeeps(c: Config, w: World, step: Step)
    requires WorldInv(c, w)
    requires forall i :: 0 <= i < |w.sessions| ==> Respects(w.db, w.sessions[i], step)
    ensures WorldInv(c, w.(db := Apply(c, w.db, step)))
  {
    var w' := w.(db := Apply(c, w.db, step));
    StepKeeps(c, w.db, step);
    forall i | 0 <= i < |w'.sessions| ensures SessionOk(w'.db, w'.sessions[i]) {
      SessionFrame(c, w.db, step, w.sessions[i]);
    }
    forall i, j | 0 <= i < j < |w'.sessions| ensures Exclusive(w', i, j) {
      assert Exclusive(w, i, j);
      SameScopes(c, w.db, step, w.sessions[i]);
      SameScopes(c, w.db, step, w.sessions[j]);
    }
  }

  /** Moving one session on keeps the invariant if what it newly holds and reads is right. */
  lemma StageKeeps(c: Config, w: World, i: nat, stage: Stage)
    requires WorldInv(c, w) && i < |w.sessions|
    requires SessionOk(w.db, w.sessions[i].(stage := stage))
    requires forall scope :: Holds(w.db, w.sessions[i].(stage := stage), scope) ==> Holds(w.db, w.sessions[i], scope) || FreeFor(w, i, scope)
    requires forall k: nat :: HoldsRow(w.sessions[i].(stage := stage), k) ==> HoldsRow(w.sessions[i], k) || RowFreeFor(w, i, k)
    ensures WorldInv(c, SetStage(w, i, stage))
  {
    var w' := SetStage(w, i, stage);
    forall a, b | 0 <= a < b < |w'.sessions| ensures Exclusive(w', a, b) {
      assert Exclusive(w, a, b);
    }
  }

  /** A commit claims, creates, charges and writes only under the locks that its session holds. */
  lemma CommitStaysWithin(db: State, x: Session)
    requires Exists(db, x.tx) && x.stage.Reading?
    ensures var step := CommitStep(x);
            && (forall scope :: !Spares(db, step, scope) ==> Holds(db, x, scope))
            && (forall k: nat :: Writes(step, k) ==> HoldsRow(x, k))
  {
  }

  /** While a transaction commits, its locks keep everyone else's reads out of its way. */
  lemma CommitRespects(c: Config, w: World, i: nat, j: nat)
    requires WorldInv(c, w) && i < |w.sessions| && j < |w.sessions| && i != j && w.sessions[i].stage.Reading?
    ensures Respects(w.db, w.sessions[j], CommitStep(w.sessions[i]))
  {
    assert if i < j then Exclusive(w, i, j) else Exclusive(w, j, i);
    CommitStaysWithin(w.db, w.sessions[i]);
  }

  // ---------------------------------------------------------------------------------------
  // The locks did their work: what follows from the reads is what follows from the present
  // ---------------------------------------------------------------------------------------

  ghost predicate ReadyToCommit(db: State, x: Session) {
    SessionOk(db, x) && x.stage.Reading? && x.stage.round == LAST_ROUND
  }

  lemma ClaimIsCovered(c: Config, db: State, x: Session)
    requires ReadyToCommit(db, x) && x.tx.ClaimOf?
    ensures var view := x.stage.view;
            CommitClaim(c, db, x.tx, x.txStart, view)
              == ClaimDelivery(c, db, x.tx.r, x.tx.d, x.tx.worker, Observed(x.txStart, view.now, view.principal, view.tenant))
  {
    assert AsRead(db.entries[x.tx.r], x.stage.view) == db.entries[x.tx.r];
  }

  lemma AdmissionIsCovered(c: Config, db: State, x: Session, principal: Ident, client: Ident)
    requires c.limits.windowSeconds > 0 && ReadyToCommit(db, x) && !x.tx.ClaimOf? && !x.tx.ChargeOf?
    requires PrincipalOf(db, x.tx) == Quota.PrincipalScope(principal) && TenantOf(db, x.tx) == Quota.TenantScope(client)
    ensures var view := x.stage.view;
            var seen := Observed(x.txStart, view.at, view.principal, view.tenant);
            AdmittedOn(c, view) == Admitted(c, db, principal, client, seen) && CoversActive(db, principal, client, seen) && seen.now <= db.clock
  {
  }

  lemma SubmissionIsCovered(c: Config, db: State, x: Session)
    requires c.limits.windowSeconds > 0 && ReadyToCommit(db, x) && x.tx.SubmissionOf?
    ensures var view := x.stage.view;
            CommitSubmission(c, db, x.tx.submission, view)
              == SubmitStep(c, db, x.tx.submission, Observed(x.txStart, view.at, view.principal, view.tenant))
  {
    var q := x.tx.submission;
    AdmissionIsCovered(c, db, x, Effective(q.principal, q.client), q.client);
  }

  lemma ReplayIsCovered(c: Config, db: State, x: Session)
    requires c.limits.windowSeconds > 0 && ReadyToCommit(db, x) && x.tx.ReplayOfRun?
    ensures var view := x.stage.view;
            CommitReplay(c, db, x.tx.replay, view)
              == ReplayStep(c, db, x.tx.replay, Observed(x.txStart, view.at, view.principal, view.tenant))
  {
    var q := x.tx.replay;
    AdmissionIsCovered(c, db, x, Effective(q.principal, q.client), q.client);
  }

  lemma EvaluationIsCovered(c: Config, db: State, x: Session)
    requires c.limits.windowSeconds > 0 && ReadyToCommit(db, x) && x.tx.EvaluationOf?
    ensures var view := x.stage.view;
            CommitEvaluation(c, db, x.tx.evaluate.(stamp := x.txStart), view)
              == EvaluateStep(c, db, x.tx.evaluate.(stamp := x.txStart), Observed(x.txStart, view.at, view.principal, view.tenant))
  {
    var q := x.tx.evaluate;
    AdmissionIsCovered(c, db, x, Effective(q.principal, q.client), q.client);
    assert AsRead(db.entries[q.source], x.stage.view).run == db.entries[q.source].run;
  }

  lemma ChargeIsCovered(c: Config, db: State, x: Session)
    requires c.limits.windowSeconds > 0 && ReadyToCommit(db, x) && x.tx.ChargeOf?
    ensures var view := x.stage.view;
            CommitCharge(c, db, x.tx, view) == SpendStep(c, db, x.tx.r, x.tx.slot, Pay(x.tx.worker, view.now, view.at))
  {
    var view := x.stage.view;
    assert AsRead(db.entries[x.tx.r], view) == db.entries[x.tx.r];
    var charge := ChargeFor(db, x.tx.r, x.tx.slot, view.at);
    Quota.OverwrittenIsCharged(db.ledger, c.limits, charge);
    forall i | 0 <= i < |db.ledger.log| && Quota.Shares(db.ledger.log[i], charge) ensures db.ledger.log[i].epoch <= charge.epoch {
      assert Quota.Against(db.ledger.log[i], PrincipalOf(db, x.tx)) || Quota.Against(db.ledger.log[i], TenantOf(db, x.tx));
    }
    assert ReadInOrder(db, x.tx.r, x.tx.slot, view.at);
  }

  /** The atomic transaction, by kind. */
  function AtomicCommit(c: Config, db: State, x: Session): State
    requires c.limits.windowSeconds > 0 && x.stage.Reading?
  {
    var view := x.stage.view;
    var seen := Observed(x.txStart, view.at, view.principal, view.tenant);
    match x.tx
    case ClaimOf(r, d, worker) => ClaimDelivery(c, db, r, d, worker, Observed(x.txStart, view.now, view.principal, view.tenant))
    case SubmissionOf(q) => SubmitStep(c, db, q, seen)
    case ReplayOfRun(q) => ReplayStep(c, db, q, seen)
    case EvaluationOf(q) => EvaluateStep(c, db, q.(stamp := x.txStart), seen)
    case ChargeOf(r, slot, worker) => SpendStep(c, db, r, slot, Pay(worker, view.now, view.at))
  }

  lemma CommitStepIs(c: Config, db: State, x: Session)
    requires c.limits.windowSeconds > 0 && x.stage.Reading?
    ensures Apply(c, db, CommitStep(x)) == AtomicCommit(c, db, x)
  {
  }

  /** A commit computed from the session's reads is the atomic transaction on the present database. */
  lemma CommitIsCovered(c: Config, db: State, x: Session)
    requires c.limits.windowSeconds > 0 && ReadyToCommit(db, x)
    ensures Commit(c, db, x) == Apply(c, db, CommitStep(x))
  {
    CommitStepIs(c, db, x);
    match x.tx {
      case ClaimOf(_, _, _) => ClaimIsCovered(c, db, x);
      case SubmissionOf(_) => SubmissionIsCovered(c, db, x);
      case ReplayOfRun(_) => ReplayIsCovered(c, db, x);
      case EvaluationOf(_) => EvaluationIsCovered(c, db, x);
      case ChargeOf(_, _, _) => ChargeIsCovered(c, db, x);
    }
  }

  lemma CommitKeeps(c: Config, w: World, i: nat)
    requires WorldInv(c, w) && i < |w.sessions| && ReadyToCommit(w.db, w.sessions[i])
    ensures WorldInv(c, SetStage(w, i, Done).(db := Commit(c, w.db, w.sessions[i])))
  {
    var step := CommitStep(w.sessions[i]);
    CommitIsCovered(c, w.db, w.sessions[i]);
    var ended := SetStage(w, i, Done);
    StageKeeps(c, w, i, Done);
    forall j | 0 <= j < |ended.sessions| ensures Respects(ended.db, ended.sessions[j], step) {
      if j != i {
        CommitRespects(c, w, i, j);
      }
    }
    DatabaseStepKeeps(c, ended, step);
  }

  // ---------------------------------------------------------------------------------------
  // Every fine step
  // ---------------------------------------------------------------------------------------

  /** Taking the next lock, with the reads that come with the last one. */
  lemma LockingKeeps(c: Config, w: World, i: nat)
    requires WorldInv(c, w) && i < |w.sessions|
    requires var stage := w.sessions[i].stage; stage.Begun? || stage.HoldsPrincipal? || stage.HoldsBoth?
    ensures WorldInv(c, AdvanceSession(c, w, i))
  {
    var x := w.sessions[i];
    if x.stage.Begun? && FreeFor(w, i, PrincipalOf(w.db, x.tx)) {
      StageKeeps(c, w, i, HoldsPrincipal);
    } else if x.stage.HoldsPrincipal? && FreeFor(w, i, TenantOf(w.db, x.tx)) {
      StageKeeps(c, w, i, HoldsBoth);
    } else if x.stage.HoldsBoth? && (RowOf(x.tx).Some? ==> RowFreeFor(w, i, RowOf(x.tx).value)) {
      FirstReadsOk(c, w.db, x.tx);
      StageKeeps(c, w, i, Reading(1, FirstReads(w.db, x.tx)));
    }
  }

  lemma FirstReadsOk(c: Config, db: State, tx: Tx)
    requires Inv(c, db) && Exists(db, tx)
    ensures ReadsOk(db, tx, 1, FirstReads(db, tx))
  {
    if tx.ClaimOf? {
      assert EntryOk(c, db.clock, db.entries[tx.r]);
    }
  }

  lemma MoreReadsOk(c: Config, db: State, tx: Tx, round: nat, view: View)
    requires Inv(c, db) && Exists(db, tx) && round < LAST_ROUND
    ensures ReadsOk(db, tx, round, view) ==> ReadsOk(db, tx, round + 1, MoreReads(db, tx, round, view))
  {
    if round == 3 {
      assert forall i :: 0 <= i < |db.ledger.log| ==> db.ledger.log[i].epoch <= Epoch(db);
    }
  }

  /** Reading takes no further lock. */
  lemma ReadOn(c: Config, w: World, i: nat, round: nat, view: View)
    requires WorldInv(c, w) && i < |w.sessions| && w.sessions[i].stage.Reading?
    requires ReadsOk(w.db, w.sessions[i].tx, round, view)
    ensures WorldInv(c, SetStage(w, i, Reading(round, view)))
  {
    var x := w.sessions[i];
    assert SessionOk(w.db, x);
    assert forall scope :: Holds(w.db, x.(stage := Reading(round, view)), scope) ==> Holds(w.db, x, scope);
    StageKeeps(c, w, i, Reading(round, view));
  }

  lemma MoreReadsHold(c: Config, w: World, i: nat) returns (round: nat, view: View)
    requires Inv(c, w.db) && WellFormed(w) && i < |w.sessions| && SessionOk(w.db, w.sessions[i])
    requires w.sessions[i].stage.Reading? && w.sessions[i].stage.round < LAST_ROUND
    ensures ReadMore(w, i) == SetStage(w, i, Reading(round, view)) && ReadsOk(w.db, w.sessions[i].tx, round, view)
  {
    var x := w.sessions[i];
    round, view := x.stage.round + 1, MoreReads(w.db, x.tx, x.stage.round, x.stage.view);
    MoreReadsOk(c, w.db, x.tx, x.stage.round, x.stage.view);
  }

  lemma ReadingKeeps(c: Config, w: World, i: nat)
    requires WorldInv(c, w) && i < |w.sessions| && w.sessions[i].stage.Reading? && w.sessions[i].stage.round < LAST_ROUND
    ensures WorldInv(c, ReadMore(w, i))
  {
    assert SessionOk(w.db, w.sessions[i]);
    var round, view := MoreReadsHold(c, w, i);
    ReadOn(c, w, i, round, view);
  }

  lemma AdvanceKeeps(c: Config, w: World, i: nat)
    requires WorldInv(c, w) && i < |w.sessions|
    ensures WorldInv(c, AdvanceSession(c, w, i))
  {
    match w.sessions[i].stage {
      case Reading(round, _) =>
        assert SessionOk(w.db, w.sessions[i]);
        if round < LAST_ROUND {
          ReadingKeeps(c, w, i);
        } else {
          CommitKeeps(c, w, i);
        }
      case Done =>
      case _ => LockingKeeps(c, w, i);
    }
  }

  lemma OtherKeeps(c: Config, w: World, step: Step)
    requires WorldInv(c, w) && MayRun(w, step)
    ensures WorldInv(c, w.(db := Apply(c, w.db, step)))
  {
    forall i | 0 <= i < |w.sessions| ensures Respects(w.db, w.sessions[i], step) {
    }
    DatabaseStepKeeps(c, w, step);
  }

  lemma BeginKeeps(c: Config, w: World, tx: Tx)
    requires WorldInv(c, w) && Exists(w.db, tx) && (tx.SubmissionOf? ==> !tx.submission.kind.EvaluationWork?)
    ensures WorldInv(c, w.(sessions := w.sessions + [Session(tx, w.db.clock, Begun)]))
  {
    var w' := w.(sessions := w.sessions + [Session(tx, w.db.clock, Begun)]);
    forall a, b | 0 <= a < b < |w'.sessions| ensures Exclusive(w', a, b) {
      if b < |w.sessions| {
        assert Exclusive(w, a, b);
      }
    }
  }

  lemma FineStepKeeps(c: Config, w: World, step: FineStep)
    requires WorldInv(c, w)
    ensures WorldInv(c, FineApply(c, w, step))
  {
    match step {
      case Begin(tx) =>
        if Exists(w.db, tx) && (tx.SubmissionOf? ==> !tx.submission.kind.EvaluationWork?) {
          BeginKeeps(c, w, tx);
        }
      case Advance(i) =>
        if i < |w.sessions| {
          AdvanceKeeps(c, w, i);
        }
      case Rollback(i) =>
        if i < |w.sessions| {
          StageKeeps(c, w, i, Done);
        }
      case Other(other) =>
        if MayRun(w, other) {
          OtherKeeps(c, w, other);
        }
    }
  }

  ghost function FineExecute(c: Config, w: World, steps: seq<FineStep>): World
    requires WorldInv(c, w)
    decreases |steps|
  {
    if steps == [] then w
    else
      FineStepKeeps(c, w, steps[0]);
      FineExecute(c, FineApply(c, w, steps[0]), steps[1..])
  }

  const INITIAL_WORLD := World(INITIAL, [])

  lemma InitialWorldInv(c: Config)
    requires ValidConfig(c)
    ensures WorldInv(c, INITIAL_WORLD)
  {
    InitialInv(c);
  }

  lemma {:induction false} FineKeeps(c: Config, w: World, steps: seq<FineStep>)
    requires WorldInv(c, w)
    ensures WorldInv(c, FineExecute(c, w, steps))
    decreases |steps|
  {
    if steps != [] {
      FineStepKeeps(c, w, steps[0]);
      FineKeeps(c, FineApply(c, w, steps[0]), steps[1..]);
    }
  }

  // ---------------------------------------------------------------------------------------
  // Refinement
  // ---------------------------------------------------------------------------------------

  predicate Commits(w: World, step: FineStep) {
    && step.Advance? && step.i < |w.sessions|
    && w.sessions[step.i].stage.Reading? && w.sessions[step.i].stage.round >= LAST_ROUND
  }

  /** The coarse steps that one fine step amounts to. */
  ghost function Coarse(w: World, step: FineStep): seq<Step>
    requires WellFormed(w)
  {
    if Commits(w, step) then [CommitStep(w.sessions[step.i])]
    else if step.Other? && MayRun(w, step.step) then [step.step]
    else []
  }

  lemma FineStepIsCoarse(c: Config, w: World, step: FineStep)
    requires WorldInv(c, w)
    ensures FineApply(c, w, step).db == Execute(c, w.db, Coarse(w, step))
  {
    if Commits(w, step) {
      CommitIsCoarse(c, w, step.i);
    } else if step.Other? && MayRun(w, step.step) {
      One(c, w.db, step.step);
    } else {
      QuietStepKeepsDatabase(c, w, step);
    }
  }

  lemma CommitIsCoarse(c: Config, w: World, i: nat)
    requires WorldInv(c, w) && i < |w.sessions| && w.sessions[i].stage.Reading? && w.sessions[i].stage.round >= LAST_ROUND
    ensures AdvanceSession(c, w, i).db == Execute(c, w.db, [CommitStep(w.sessions[i])])
  {
    assert SessionOk(w.db, w.sessions[i]);
    One(c, w.db, CommitStep(w.sessions[i]));
    CommitIsCovered(c, w.db, w.sessions[i]);
  }

  lemma QuietStepKeepsDatabase(c: Config, w: World, step: FineStep)
    requires c.limits.windowSeconds > 0 && WellFormed(w) && Coarse(w, step) == []
    ensures FineApply(c, w, step).db == w.db
  {
  }

  lemma {:induction false} FineRefinesFrom(c: Config, w: World, steps: seq<FineStep>) returns (coarse: seq<Step>)
    requires WorldInv(c, w)
    ensures FineExecute(c, w, steps).db == Execute(c, w.db, coarse)
    decreases |steps|
  {
    if steps == [] {
      coarse := [];
    } else {
      FineStepKeeps(c, w, steps[0]);
      FineStepIsCoarse(c, w, steps[0]);
      var rest := FineRefinesFrom(c, FineApply(c, w, steps[0]), steps[1..]);
      coarse := Coarse(w, steps[0]) + rest;
      ExecuteConcat(c, w.db, Coarse(w, steps[0]), rest);
    }
  }

  /**
   Refinement: the database after any interleaving of locking, reading and committing sessions is one
   that atomic transactions could have produced, so every guarantee about the latter holds of the
   former. Each commit writes what follows from its earlier reads of the run, its attempts, the key,
   the counts, the quota counters and the clock.
   */
  lemma InterleavingRefinesAtomic(c: Config, steps: seq<FineStep>) returns (coarse: seq<Step>)
    requires ValidConfig(c)
    ensures WorldInv(c, INITIAL_WORLD)
    ensures FineExecute(c, INITIAL_WORLD, steps).db == After(c, coarse)
  {
    InitialWorldInv(c);
    coarse := FineRefinesFrom(c, INITIAL_WORLD, steps);
  }

  /** Capacity under full interleaving: no scope ever exceeds its running or active limit. */
  lemma CapacityUnderInterleaving(c: Config, steps: seq<FineStep>, scope: Quota.Scope)
    requires ValidConfig(c)
    ensures WorldInv(c, INITIAL_WORLD)
    ensures var db := FineExecute(c, INITIAL_WORLD, steps).db;
            RunningIn(db.entries, scope) <= RunningLimit(c, scope) && ActiveIn(db.entries, scope) <= ActiveLimit(c, scope)
  {
    var coarse := InterleavingRefinesAtomic(c, steps);
    CapacityHolds(c, coarse, scope);
  }

  /** No charge is lost: under full interleaving the counters still agree with the charges, window by window. */
  lemma QuotaUnderInterleaving(c: Config, steps: seq<FineStep>, scope: Quota.Scope, window: int, a: int)
    requires ValidConfig(c)
    ensures WorldInv(c, INITIAL_WORLD)
    ensures var log := FineExecute(c, INITIAL_WORLD, steps).db.ledger.log;
            && Quota.InWindow(log, scope, window, c.limits.windowSeconds) <= Quota.Limit(c.limits, scope)
            && Quota.Between(log, scope, a, a + c.limits.windowSeconds) <= 2 * Quota.Limit(c.limits, scope)
  {
    var coarse := InterleavingRefinesAtomic(c, steps);
    SystemQuotaHolds(c, coarse, scope, window, a);
  }

  /** The key that a creation is about to insert. */
  function NewKey(tx: Tx): Option<(Ident, nat)> {
    if tx.SubmissionOf? || tx.ReplayOfRun? then KeyOf(tx) else None
  }

  /**
   What a transaction read under its locks is still so when it commits: the locked run and its
   attempts, the run with its key, both quota counters. So a submission or a replay whose key was
   free when it looked never meets the unique constraint.
   */
  lemma CommitsOnFreshReads(c: Config, steps: seq<FineStep>, i: nat)
    requires ValidConfig(c) && WorldInv(c, INITIAL_WORLD)
    requires i < |FineExecute(c, INITIAL_WORLD, steps).sessions|
    requires FineExecute(c, INITIAL_WORLD, steps).sessions[i].stage.Reading?
    ensures var w := FineExecute(c, INITIAL_WORLD, steps);
            var x := w.sessions[i];
            var view := x.stage.view;
            && Exists(w.db, x.tx)
            && view.run == ReadRun(w.db, x.tx)
            && view.found == Lookup(w.db, x.tx)
            && (NewKey(x.tx).Some? && view.found.None? ==> FindByKey(w.db.entries, NewKey(x.tx).value.0, NewKey(x.tx).value.1).None?)
            && (x.stage.round == LAST_ROUND ==>
                  && view.attempts == ReadAttempts(w.db, x.tx)
                  && view.principalRow == Quota.Stored(w.db.ledger.rows, PrincipalOf(w.db, x.tx))
                  && view.tenantRow == Quota.Stored(w.db.ledger.rows, TenantOf(w.db, x.tx)))
  {
    FineKeeps(c, INITIAL_WORLD, steps);
    var w := FineExecute(c, INITIAL_WORLD, steps);
    assert SessionOk(w.db, w.sessions[i]);
  }
}
