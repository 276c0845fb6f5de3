/**
 What the runtime guarantees, stated for the state after any list of steps from the empty
 database, and for any continuation of it.
 */
module Guarantees {
  import opened Domain
  import opened Retry
  import opened Tables
  import opened Transitions
  import opened EntryInvariant
  import opened Protocol
  import opened ProtocolInvariant
  import opened Evolution
  import Quota

  function After(c: Config, steps: seq<Step>): State
    requires c.limits.windowSeconds > 0
  {
    Execute(c, INITIAL, steps)
  }

  lemma Reached(c: Config, steps: seq<Step>)
    requires ValidConfig(c)
    ensures Inv(c, After(c, steps))
  {
    InitialInv(c);
    ExecuteKeeps(c, INITIAL, steps);
  }

  /** Where an attempt of a reachable run stands, by the status of its run. */
  lemma AttemptShape(c: Config, clock: Time, e: Entry, i: nat)
    requires RowsInv(c, clock, e) && i < |e.attempts|
    ensures e.attempts[i].number == i + 1
    ensures i < |e.attempts| - 1 ==> SettledAt(e.attempts[i], i)
    ensures SettledAt(e.attempts[i], i) || SucceededLast(e.attempts[i]) || RejectedLast(e.attempts[i]) || OpenLast(e.attempts[i])
    ensures OpenLast(e.attempts[i]) <==> e.run.status.Running? && i == |e.attempts| - 1
    ensures SucceededLast(e.attempts[i]) <==> e.run.status.Succeeded? && i == |e.attempts| - 1
  {
    var n := |e.attempts| - 1;
    if i < n && (e.run.status.Running? || e.run.status.Succeeded? || e.run.status.Failed?) {
      assert Settled(e.attempts) || SettledAt(e.attempts[..n][i], i);
    }
    assert Settled(e.attempts) ==> SettledAt(e.attempts[i], i);
  }

  /**
   Lease and attempt: a run is RUNNING exactly when it has an unfinished attempt; that attempt
   is the only one, has the highest number and belongs to the lease's owner. Otherwise both
   lease fields are null. `completed_at` is set exactly on terminal runs.
   */
  lemma LeaseMatchesAttempt(c: Config, steps: seq<Step>, r: nat)
    requires ValidConfig(c) && r < |After(c, steps).entries|
    ensures var e := After(c, steps).entries[r];
            && (e.run.status.Running? <==> exists i :: 0 <= i < |e.attempts| && e.attempts[i].finishedAt.None?)
            && (forall i :: 0 <= i < |e.attempts| && e.attempts[i].finishedAt.None? ==>
                  && e.run.leaseOwner == Some(e.attempts[i].worker) && e.run.leaseExpires.Some?
                  && forall j :: 0 <= j < |e.attempts| && j != i ==>
                       e.attempts[j].finishedAt.Some? && e.attempts[j].number < e.attempts[i].number)
            && (!e.run.status.Running? ==> e.run.leaseOwner.None? && e.run.leaseExpires.None?)
            && (e.run.completedAt.Some? <==> Terminal(e.run.status))
            && (e.run.nextAttemptAt.Some? <==> e.run.status.RetryScheduled?)
  {
    Reached(c, steps);
    var s := After(c, steps);
    var e := s.entries[r];
    assert EntryOk(c, s.clock, e);
    forall i | 0 <= i < |e.attempts|
      ensures e.attempts[i].number == i + 1
      ensures e.attempts[i].finishedAt.None? <==> e.run.status.Running? && i == |e.attempts| - 1
    {
      AttemptShape(c, s.clock, e, i);
    }
    if e.run.status.Running? {
      assert e.attempts[|e.attempts| - 1].finishedAt.None?;
    }
  }

  /**
   Attempt numbers are 1..n with n within the policy's and the worker's bound. When the stored
   policy stays within the worker's bound, a queued run always has an attempt left, so `claim`
   never ends it; when it does not, `claim` ends it exactly at the worker's bound.
   */
  lemma AttemptBudget(c: Config, steps: seq<Step>, r: nat)
    requires ValidConfig(c) && r < |After(c, steps).entries|
    ensures var e := After(c, steps).entries[r];
            && (forall i :: 0 <= i < |e.attempts| ==> e.attempts[i].number == i + 1)
            && (e.attempts != [] ==> Policy(e).Ok? && |e.attempts| <= Min(Policy(e).value.maxAttempts, c.maxAttempts))
            && (e.run.status.Queued? && Policy(e).Ok? ==>
                  (MaxNumber(e.attempts) + 1 > Min(Policy(e).value.maxAttempts, c.maxAttempts)
                   <==> |e.attempts| == c.maxAttempts && c.maxAttempts < Policy(e).value.maxAttempts))
            && (Policy(e).Ok? && Policy(e).value.maxAttempts <= c.maxAttempts && e.run.status.Failed? ==>
                  e.attempts != [] && RejectedLast(e.attempts[|e.attempts| - 1]))
  {
    Reached(c, steps);
    var s := After(c, steps);
    var e := s.entries[r];
    assert EntryOk(c, s.clock, e);
    forall i | 0 <= i < |e.attempts| ensures e.attempts[i].number == i + 1 {
      AttemptShape(c, s.clock, e, i);
    }
    MaxNumberIsLength(e.attempts);
  }

  /** The worker's new attempt, on the provider its number selects, and the lease that goes with it. */
  ghost predicate Opens(c: Config, e: Entry, e': Entry, worker: Ident, seen: Observed) {
    && e.run.status.Queued? && Policy(e).Ok?
    && var n, order := |e.attempts|, Policy(e).value.providerOrder;
       && order != []
       && e'.attempts == e.attempts + [Attempt(n + 1, order[Min(n, |order| - 1)], worker, seen.txStart, seen.now, None, None, None, false, None)]
       && e'.run == e.run.(status := Running,
                           leaseOwner := Some(worker),
                           leaseExpires := Some(seen.now + c.leaseSeconds),
                           startedAt := Some(if e.run.startedAt.Some? then e.run.startedAt.value else seen.now))
  }

  /** One second's delay, and no attempt. */
  ghost predicate Defers(e: Entry, e': Entry, seen: Observed) {
    && e.run.status.Queued? && e'.attempts == e.attempts
    && e'.run == e.run.(status := RetryScheduled, nextAttemptAt := Some(seen.now + 1.0))
  }

  /** The stored policy cannot be read or allows no further attempt. */
  ghost predicate GivesUp(e: Entry, e': Entry, seen: Observed) {
    && e.run.status.Queued? && e'.attempts == e.attempts
    && e'.run == e.run.(status := Failed, error := Some(InvalidStoredPolicy), completedAt := Some(seen.now))
  }

  ghost predicate AttemptLeft(c: Config, e: Entry) {
    Policy(e).Ok? && |e.attempts| < Policy(e).value.maxAttempts && |e.attempts| < c.maxAttempts
  }

  /** What a claim does to a run's rows, by what it finds. */
  ghost predicate ClaimOutcome(c: Config, e: Entry, e': Entry, decision: Decision, worker: Ident, seen: Observed) {
    && (decision.Claimed? ==> decision.slot == |e.attempts|)
    && match e.run.status
       case Queued =>
         if seen.principal >= c.principalRunning || seen.tenant >= c.tenantRunning
         then Defers(e, e', seen) && decision == NotReady && e'.events == e.events
         else if AttemptLeft(c, e)
         then Opens(c, e, e', worker, seen) && decision.Claimed? && e'.events == e.events + [RunClaimed(|e.attempts| + 1)]
         else GivesUp(e, e', seen) && decision == AlreadyTerminal && e'.events == e.events
       case Running =>
         e' == e && decision == if e.run.leaseExpires.Some? && e.run.leaseExpires.value <= seen.now then NotReady else ActiveLease
       case RetryScheduled => e' == e && decision == NotReady
       case _ => e' == e && decision == AlreadyTerminal
  }

  lemma ClaimRowsOutcome(c: Config, clock: Time, e: Entry, worker: Ident, seen: Observed)
    requires EntryOk(c, clock, e)
    ensures var (e', decision) := ClaimRows(c, e, worker, seen);
            ClaimOutcome(c, e, e', decision, worker, seen)
  {
    if e.run.status.Queued? {
      MaxNumberIsLength(e.attempts);
    }
  }

  /**
   A claim in a reachable state: it opens attempt n + 1 for the worker exactly on a queued run with
   free capacity and an attempt left, with a lease from the instant it sampled; full capacity defers
   by one second and consumes nothing; without an attempt left it ends the run; a run that is not
   queued is left alone. Unless it ends the run, it touches no other rows.
   */
  lemma ClaimOpensOneAttemptOrNone(c: Config, steps: seq<Step>, r: nat, worker: Ident, seen: Observed)
    requires ValidConfig(c) && r < |After(c, steps).entries|
    ensures var s := After(c, steps);
            var (e', decision) := ClaimRows(c, s.entries[r], worker, seen);
            && ClaimOutcome(c, s.entries[r], e', decision, worker, seen)
            && (e' == s.entries[r] || !Terminal(e'.run.status) ==> ClaimTx(c, s, r, worker, seen) == (Put(s, r, e'), decision))
  {
    Reached(c, steps);
    var s := After(c, steps);
    assert EntryOk(c, s.clock, s.entries[r]);
    ClaimRowsOutcome(c, s.clock, s.entries[r], worker, seen);
  }

  /** Retries that run out end DEAD_LETTERED, and nothing else does. */
  lemma ExhaustedRetriesAreDeadLettered(c: Config, steps: seq<Step>, r: nat)
    requires ValidConfig(c) && r < |After(c, steps).entries|
    ensures var e := After(c, steps).entries[r];
            e.run.status.DeadLettered? <==>
              (&& e.attempts != [] && Policy(e).Ok? && |e.attempts| == Policy(e).value.maxAttempts
               && SettledAt(e.attempts[|e.attempts| - 1], |e.attempts| - 1))
  {
    Reached(c, steps);
    var s := After(c, steps);
    assert EntryOk(c, s.clock, s.entries[r]);
  }

  /**
   Fencing: an attempt that has finished stays as it finished in every continuation, and there
   every completion that names it is refused and changes nothing, whoever sends it and whoever
   holds the run's lease by then.
   */
  lemma AttemptsFinishOnce(c: Config, steps: seq<Step>, more: seq<Step>, r: nat, slot: nat, worker: Ident, now: Time, report: Report)
    requires ValidConfig(c) && r < |After(c, steps).entries|
    requires slot < |After(c, steps).entries[r].attempts|
    requires After(c, steps).entries[r].attempts[slot].finishedAt.Some?
    ensures var s, s' := After(c, steps), Execute(c, After(c, steps), more);
            && r < |s'.entries| && slot < |s'.entries[r].attempts|
            && s'.entries[r].attempts[slot] == s.entries[r].attempts[slot]
            && CompleteTx(s', r, slot, worker, now, report) == (s', false)
  {
    Reached(c, steps);
    ExecuteEvolves(c, After(c, steps), more, r);
    var e, e' := After(c, steps).entries[r], Execute(c, After(c, steps), more).entries[r];
    assert AttemptEvolves(e.attempts[slot], e'.attempts[slot]);
  }

  /**
   At most one attempt of a run has succeeded, it is the last one, and its payload is the run's
   result. Terminal runs never change again, so the result is final.
   */
  lemma ResultIsFinal(c: Config, steps: seq<Step>, more: seq<Step>, r: nat)
    requires ValidConfig(c) && r < |After(c, steps).entries|
    ensures var e := After(c, steps).entries[r];
            && (forall i :: 0 <= i < |e.attempts| && e.attempts[i].outcome == Some(Success) ==>
                  i == |e.attempts| - 1 && e.run.status.Succeeded? && e.run.result == e.attempts[i].payload)
            && (e.run.status.Succeeded? ==> e.attempts != [] && e.attempts[|e.attempts| - 1].outcome == Some(Success))
            && (e.run.result.Some? <==> e.run.status.Succeeded?)
            && r < |Execute(c, After(c, steps), more).entries|
            && (Terminal(e.run.status) ==>
                  Execute(c, After(c, steps), more).entries[r].run == e.run &&
                  |Execute(c, After(c, steps), more).entries[r].attempts| == |e.attempts|)
  {
    Reached(c, steps);
    var s := After(c, steps);
    var e := s.entries[r];
    assert EntryOk(c, s.clock, e);
    ExecuteEvolves(c, s, more, r);
    forall i | 0 <= i < |e.attempts| && e.attempts[i].outcome == Some(Success)
      ensures i == |e.attempts| - 1 && e.run.status.Succeeded? && e.run.result == e.attempts[i].payload
    {
      AttemptShape(c, s.clock, e, i);
    }
  }

  /** Each step moves each run's status along the lifecycle table or the deferral edge only. */
  lemma StatusFollowsTable(c: Config, steps: seq<Step>, step: Step, r: nat)
    requires ValidConfig(c) && r < |After(c, steps).entries|
    ensures r < |Apply(c, After(c, steps), step).entries|
    ensures Edge(After(c, steps).entries[r].run.status, Apply(c, After(c, steps), step).entries[r].run.status)
  {
    Reached(c, steps);
    StepMoves(c, After(c, steps), step);
    assert Moves(After(c, steps).entries[r], Apply(c, After(c, steps), step).entries[r]);
  }

  /** The attempts a run can have. */
  ghost function AllowedAttempts(c: Config, e: Entry): int {
    if Policy(e).Ok? then Min(Policy(e).value.maxAttempts, c.maxAttempts) else 0
  }

  /** A run with M allowed attempts and d deferrals changes status at most 3M + 1 + 2d times. */
  lemma {:induction false} StatusChangesBounded(c: Config, steps: seq<Step>, more: seq<Step>, r: nat)
    requires ValidConfig(c) && r < |After(c, steps).entries|
    requires After(c, steps).entries[r].run.status.Queued? && After(c, steps).entries[r].attempts == []
    ensures Inv(c, After(c, steps))
    ensures StatusChanges(c, After(c, steps), more, r)
         <= 3 * AllowedAttempts(c, After(c, steps).entries[r]) + 1 + 2 * Deferrals(c, After(c, steps), more, r)
  {
    Reached(c, steps);
    var s := After(c, steps);
    var s' := Execute(c, s, more);
    ChangesAreProgress(c, s, more, r);
    ExecuteKeeps(c, s, more);
    ExecuteEvolves(c, s, more, r);
    assert EntryOk(c, s'.clock, s'.entries[r]);
  }

  // ---------------------------------------------------------------------------------------
  // Ledger
  // ---------------------------------------------------------------------------------------

  function RowsFor(outbox: seq<OutboxRow>, delivery: Delivery): nat {
    if outbox == [] then 0 else
    RowsFor(outbox[..|outbox| - 1], delivery) + if outbox[|outbox| - 1].delivery == delivery then 1 else 0
  }

  lemma {:induction false} RowsByKind(outbox: seq<OutboxRow>, dead: bool)
    requires forall i :: 0 <= i < |outbox| ==> (outbox[i].delivery.DeadLetterRun? <==> dead && i == |outbox| - 1)
    ensures RowsFor(outbox, DeadLetterRun) == if dead && outbox != [] then 1 else 0
    ensures RowsFor(outbox, QueueRun) == |outbox| - if dead && outbox != [] then 1 else 0
  {
    if outbox != [] {
      RowsByKind(outbox[..|outbox| - 1], false);
    }
  }

  ghost predicate Conserved(e: Entry) {
    var events := multiset(e.events);
    && (forall k :: 1 <= k <= |e.attempts| ==> events[RunClaimed(k)] == 1)
    && (forall k :: k < 1 || k > |e.attempts| ==> events[RunClaimed(k)] == 0)
    && RowsFor(e.outbox, QueueRun) == 1 + events[RunRetryQueued]
    && RowsFor(e.outbox, DeadLetterRun) == (if e.run.status.DeadLettered? then 1 else 0)
    && forall i: nat :: i < |e.outbox| ==>
         && e.outbox[i].publishAttempts == events[OutboxPublished(i)] + events[OutboxPublishFailed(i)]
         && events[OutboxPublished(i)] == (if e.outbox[i].publishedAt.Some? then 1 else 0)
  }

  /**
   Conservation between the tables: one RUN_CLAIMED event per attempt number, one RUN_QUEUED row
   for the acceptance and one per RUN_RETRY_QUEUED event, one RUN_DEAD_LETTERED row exactly on
   dead-lettered runs, and per outbox row as many publish attempts as events that report one,
   at most one of them a success.
   */
  lemma LedgerIsConserved(c: Config, steps: seq<Step>, r: nat)
    requires ValidConfig(c) && r < |After(c, steps).entries|
    ensures Conserved(After(c, steps).entries[r])
  {
    Reached(c, steps);
    var s := After(c, steps);
    var e := s.entries[r];
    assert EntryOk(c, s.clock, e);
    RowsByKind(e.outbox, e.run.status.DeadLettered?);
    var events := multiset(e.events);
    forall i: nat | i < |e.outbox|
      ensures e.outbox[i].publishAttempts == events[OutboxPublished(i)] + events[OutboxPublishFailed(i)]
      ensures events[OutboxPublished(i)] == (if e.outbox[i].publishedAt.Some? then 1 else 0)
    {
      assert RowOk(events, e.outbox, i);
    }
  }

  // ---------------------------------------------------------------------------------------
  // Spacing
  // ---------------------------------------------------------------------------------------

  /** Attempt k + 1 is never claimed before attempt k's finish plus the policy's delay after attempt k. */
  lemma RetriesAreSpaced(c: Config, steps: seq<Step>, r: nat, k: nat)
    requires ValidConfig(c) && r < |After(c, steps).entries|
    requires 0 < k < |After(c, steps).entries[r].attempts|
    ensures var e := After(c, steps).entries[r];
            && Policy(e).Ok? && DelayAfterAttempt(Policy(e).value, k).Ok?
            && e.attempts[k - 1].finishedAt.Some?
            && e.attempts[k].claimedAt >= e.attempts[k - 1].finishedAt.value + DelayAfterAttempt(Policy(e).value, k).value
            && DelayAfterAttempt(Policy(e).value, k).value == UncappedDelay(Policy(e).value, k)
  {
    Reached(c, steps);
    var s := After(c, steps);
    var e := s.entries[r];
    assert EntryOk(c, s.clock, e);
    assert SpacedAt(Policy(e).value, e.attempts[k - 1], e.attempts[k], k);
    ExponentCapInvisible(Policy(e).value, k);
  }

  /** A later attempt runs on the provider that the immutable order gives its number. */
  lemma FallbackFollowsOrder(c: Config, steps: seq<Step>, r: nat, k: nat)
    requires ValidConfig(c) && r < |After(c, steps).entries| && k < |After(c, steps).entries[r].attempts|
    requires After(c, steps).entries[r].attempts[k].outcome != Some(Success)
    ensures var e := After(c, steps).entries[r];
            && Policy(e).Ok?
            && e.attempts[k].provider == Policy(e).value.providerOrder[Min(k, |Policy(e).value.providerOrder| - 1)]
  {
    Reached(c, steps);
    var s := After(c, steps);
    assert EntryOk(c, s.clock, s.entries[r]);
  }

  // ---------------------------------------------------------------------------------------
  // Capacity
  // ---------------------------------------------------------------------------------------

  /** Neither a principal nor a tenant ever has more running or more active runs than allowed. */
  lemma CapacityHolds(c: Config, steps: seq<Step>, scope: Quota.Scope)
    requires ValidConfig(c)
    ensures RunningIn(After(c, steps).entries, scope) <= RunningLimit(c, scope)
    ensures ActiveIn(After(c, steps).entries, scope) <= ActiveLimit(c, scope)
  {
    Reached(c, steps);
    assert CapOk(c, After(c, steps).entries, scope);
  }

  // ---------------------------------------------------------------------------------------
  // Provider calls
  // ---------------------------------------------------------------------------------------

  function TotalCalls(spending: seq<Spending>): nat {
    if spending == [] then 0 else TotalCalls(spending[..|spending| - 1]) + spending[|spending| - 1].calls
  }

  lemma {:induction false} TotalBounded(spending: seq<Spending>, bound: nat)
    requires forall i :: 0 <= i < |spending| ==> spending[i].calls <= bound
    ensures bound == 0 ==> TotalCalls(spending) == 0
    ensures bound == 1 ==> TotalCalls(spending) <= |spending|
    ensures |spending| <= 1 ==> TotalCalls(spending) <= bound
  {
    if spending != [] {
      TotalBounded(spending[..|spending| - 1], bound);
    }
  }

  /** What one attempt's executor can come to, whatever its charges meet. */
  lemma ExecutorBounds(c: Config, a: Accepted, x: Spending)
    requires ExecutorOk(Targets(c, a), Cases(c, a), x)
    ensures x.calls <= x.charges <= x.calls + 1 && x.charges <= Loops(c, a) <= Budget(c, a)
    ensures x.activity.Calling? ==> x.charges < Budget(c, a)
  {
    ChargesWithinLoops(c, a, x);
  }

  /**
   Every provider call was paid for by its own attempt, at most one payment is without its call,
   and the payments are exactly those the quota ledger has booked for the attempt. The loops alone
   keep them within the server's budget, so the executor's guard on its counter never refuses.
   */
  lemma CallsArePaid(c: Config, steps: seq<Step>, r: nat, slot: nat)
    requires ValidConfig(c) && r < |After(c, steps).entries| && slot < |After(c, steps).entries[r].attempts|
    ensures var s := After(c, steps);
            var e := s.entries[r];
            && |e.spending| == |e.attempts|
            && var x := e.spending[slot];
               && x.calls <= x.charges <= x.calls + 1
               && x.charges == Quota.ByAttempt(s.ledger.log, r, slot)
               && x.charges <= Loops(c, e.accepted) <= Budget(c, e.accepted)
               && (x.activity.Calling? ==> x.charges < Budget(c, e.accepted))
  {
    Reached(c, steps);
    var s := After(c, steps);
    var e := s.entries[r];
    assert EntryOk(c, s.clock, e);
    assert Quota.ByAttempt(s.ledger.log, r, slot) == ChargesOf(s.entries, r, slot);
    ExecutorBounds(c, e.accepted, e.spending[slot]);
  }

  /** What the job policy reads as: one attempt, within the job timeout. */
  lemma JobPolicyIsRead(c: Config)
    requires c.jobTimeout > 0.0
    ensures FromSnapshot(JobPolicy(c)) == Ok(RetryPolicy(1, c.jobTimeout, 1.0, 1.0, ["deterministic"]))
  {
    assert "deterministic"[0] == 'd' && !IsSpace('d');
    assert !Blank("deterministic");
  }

  /** Under the job policy a run has one attempt at most. */
  lemma JobsAreTriedOnce(c: Config, clock: Time, e: Entry)
    requires RowsInv(c, clock, e) && e.accepted.snapshot == JobPolicy(c)
    ensures |e.spending| <= 1
  {
  }

  ghost predicate CallsFit(c: Config, e: Entry) {
    match e.accepted.kind
    case ExecutionWork => TotalCalls(e.spending) <= |e.attempts|
    case EvaluationWork => TotalCalls(e.spending) == 0
    case RegressionWork =>
      e.accepted.snapshot == JobPolicy(c) && e.accepted.input.Dataset? ==>
        TotalCalls(e.spending) <= 2 * e.accepted.input.cases && TotalCalls(e.spending) <= c.regressionBudget
  }

  lemma CallsFitKind(c: Config, clock: Time, e: Entry)
    requires RowsInv(c, clock, e)
    ensures CallsFit(c, e)
  {
    forall i | 0 <= i < |e.spending| ensures e.spending[i].calls <= Loops(c, e.accepted) {
      ExecutorBounds(c, e.accepted, e.spending[i]);
    }
    TotalBounded(e.spending, Loops(c, e.accepted));
    if e.accepted.snapshot == JobPolicy(c) {
      JobsAreTriedOnce(c, clock, e);
    }
  }

  /**
   By kind: an execution run calls once per attempt at most, an evaluation job never, and a
   regression job under the job policy at most twice per case, within the server's budget.
   */
  lemma CallsByKind(c: Config, steps: seq<Step>, r: nat)
    requires ValidConfig(c) && r < |After(c, steps).entries|
    ensures CallsFit(c, After(c, steps).entries[r])
  {
    Reached(c, steps);
    var s := After(c, steps);
    assert EntryOk(c, s.clock, s.entries[r]);
    CallsFitKind(c, s.clock, s.entries[r]);
  }

  /** Whoever holds the fence: the worker of the open attempt, until the lease that its claim dates runs out. */
  ghost predicate HoldsFence(c: Config, s: State, r: nat, slot: nat, worker: Ident, now: Time) {
    && r < |s.entries| && s.entries[r].run.status.Running? && slot == |s.entries[r].attempts| - 1
    && s.entries[r].attempts[slot].finishedAt.None? && s.entries[r].attempts[slot].worker == worker
    && now < s.entries[r].attempts[slot].claimedAt + c.leaseSeconds
  }

  lemma FenceIsExact(c: Config, s: State, r: nat, slot: nat, worker: Ident, now: Time)
    requires Inv(c, s)
    ensures HoldsFence(c, s, r, slot, worker, now) <==> r < |s.entries| && MayComplete(s.entries[r], slot, worker, now)
  {
    if r < |s.entries| {
      assert EntryOk(c, s.clock, s.entries[r]);
      if MayComplete(s.entries[r], slot, worker, now) {
        FenceIsLast(c, s.clock, s.entries[r], slot, worker, now);
      }
    }
  }

  /** A report is accepted exactly from whoever holds the fence of the attempt it names. */
  lemma CompletionIsFencedExactly(c: Config, steps: seq<Step>, r: nat, slot: nat, worker: Ident, now: Time, report: Report)
    requires ValidConfig(c)
    ensures CompleteTx(After(c, steps), r, slot, worker, now, report).1 <==> HoldsFence(c, After(c, steps), r, slot, worker, now)
  {
    Reached(c, steps);
    var s := After(c, steps);
    FenceIsExact(c, s, r, slot, worker, now);
    if HoldsFence(c, s, r, slot, worker, now) {
      assert EntryOk(c, s.clock, s.entries[r]);
      FenceIsLast(c, s.clock, s.entries[r], slot, worker, now);
    }
  }

  ghost predicate QuotaLeft(c: Config, s: State, principal: Ident, client: Ident, epoch: int)
    requires c.limits.windowSeconds > 0
  {
    var w := c.limits.windowSeconds;
    && Quota.InWindow(s.ledger.log, Quota.PrincipalScope(principal), Quota.Window(epoch, w), w) < c.limits.principalCalls
    && Quota.InWindow(s.ledger.log, Quota.TenantScope(client), Quota.Window(epoch, w), w) < c.limits.tenantCalls
  }

  /**
   A charge is accepted exactly if its worker holds the fence at the instant it was checked, its
   executor is inside a call that it has not paid for, and the window of the instant at which the
   quota is read has room for both scopes.
   */
  lemma ChargesAreFenced(c: Config, steps: seq<Step>, r: nat, slot: nat, worker: Ident, now: Time, at: Time)
    requires ValidConfig(c) && ReadInOrder(After(c, steps), r, slot, at)
    ensures var s := After(c, steps);
            ChargeTx(c, s, r, slot, worker, now, at).1 <==>
              && HoldsFence(c, s, r, slot, worker, now)
              && slot < |s.entries[r].spending| && s.entries[r].spending[slot].activity.Calling?
              && QuotaLeft(c, s, s.entries[r].accepted.principal, s.entries[r].accepted.client, at.Floor)
  {
    Reached(c, steps);
    var s := After(c, steps);
    FenceIsExact(c, s, r, slot, worker, now);
    Quota.OrderedIsCurrent(c.limits, s.ledger.log, ChargeFor(s, r, slot, at));
    Quota.BudgetCheckIsExact(c.limits, s.ledger, ChargeFor(s, r, slot, at));
    if slot < |s.entries[r].spending| {
      assert EntryOk(c, s.clock, s.entries[r]);
      ExecutorBounds(c, s.entries[r].accepted, s.entries[r].spending[slot]);
    }
  }

  /** Over the whole system, charges stay within the quota of every aligned window and interval. */
  lemma SystemQuotaHolds(c: Config, steps: seq<Step>, scope: Quota.Scope, window: int, a: int)
    requires ValidConfig(c)
    ensures Quota.InWindow(After(c, steps).ledger.log, scope, window, c.limits.windowSeconds) <= Quota.Limit(c.limits, scope)
    ensures Quota.Between(After(c, steps).ledger.log, scope, a, a + c.limits.windowSeconds) <= 2 * Quota.Limit(c.limits, scope)
  {
    Reached(c, steps);
    Quota.BookBounds(c.limits, After(c, steps).ledger, scope, window, a);
  }

  // ---------------------------------------------------------------------------------------
  // Evaluation jobs
  // ---------------------------------------------------------------------------------------

  /**
   Every evaluation job has its record. It is pending exactly while the job is not terminal, passed
   or not as the job's result says, an error exactly when the job failed, and final afterwards; and
   its source is there, of the same client, with a result.
   */
  lemma EvaluationLifecycle(c: Config, steps: seq<Step>, more: seq<Step>, r: nat)
    requires ValidConfig(c) && r < |After(c, steps).entries|
    requires After(c, steps).entries[r].accepted.kind.EvaluationWork?
    ensures var s := After(c, steps);
            var e := s.entries[r];
            && !LacksRecord(e) && e.evaluation.Some?
            && (e.evaluation.value.status.Pending? <==> !Terminal(e.run.status))
            && (e.evaluation.value.status.Passed? <==> e.run.status.Succeeded? && e.run.result.Some? && e.run.result.value.passed)
            && (e.evaluation.value.status.NotPassed? <==> e.run.status.Succeeded? && e.run.result.Some? && !e.run.result.value.passed)
            && (e.evaluation.value.status.EvaluationError? <==> e.run.status.Failed? || e.run.status.DeadLettered?)
            && e.evaluation.value.completedAt == e.run.completedAt && e.evaluation.value.result == e.run.result
            && e.evaluation.value.source < |s.entries|
            && s.entries[e.evaluation.value.source].accepted.client == e.accepted.client
            && s.entries[e.evaluation.value.source].run.result.Some?
            && r < |Execute(c, s, more).entries|
            && (!e.evaluation.value.status.Pending? ==> Execute(c, s, more).entries[r].evaluation == e.evaluation)
  {
    Reached(c, steps);
    var s := After(c, steps);
    var e := s.entries[r];
    assert EntryOk(c, s.clock, e) && SourceOk(s.entries, e);
    assert EntryOk(c, s.clock, s.entries[e.evaluation.value.source]);
    ExecuteEvolves(c, s, more, r);
  }
}
