/**
 No work is stranded: whatever crashes, duplicates and takeovers came before, every active
 run can still move, and can still reach a terminal status.
 */
module Liveness {
  import opened Domain
  import opened Retry
  import opened Tables
  import opened Transitions
  import opened EntryInvariant
  import opened Protocol
  import opened ProtocolInvariant
  import opened Evolution
  import opened Guarantees
  import Quota

  /** What an active run can count on, by status. */
  ghost predicate HasWayForward(e: Entry) {
    match e.run.status
    case Queued => OnItsWay(e.outbox, e.queued, e.deliveries)
    case Running => e.run.leaseExpires.Some? && e.attempts != [] && e.attempts[|e.attempts| - 1].finishedAt.None?
    case RetryScheduled => e.run.nextAttemptAt.Some?
    case _ => true
  }

  /**
   A queued run has an unpublished RUN_QUEUED row, a message in the broker or a delivery that no
   claim has decided yet; a running run has a lease that expires and an open attempt; a scheduled
   retry has its time.
   */
  lemma NothingIsStranded(c: Config, steps: seq<Step>, r: nat)
    requires ValidConfig(c) && r < |After(c, steps).entries|
    ensures HasWayForward(After(c, steps).entries[r])
  {
    Reached(c, steps);
    assert EntryOk(c, After(c, steps).clock, After(c, steps).entries[r]);
  }

  lemma {:induction false} ExecuteConcat(c: Config, s: State, a: seq<Step>, b: seq<Step>)
    requires c.limits.windowSeconds > 0
    ensures Execute(c, s, a + b) == Execute(c, Execute(c, s, a), b)
    decreases |a|
  {
    if a == [] {
      assert a + b == b;
    } else {
      assert (a + b)[1..] == a[1..] + b;
      ExecuteConcat(c, Apply(c, s, a[0]), a[1..], b);
    }
  }

  lemma One(c: Config, s: State, step: Step)
    requires c.limits.windowSeconds > 0
    ensures Execute(c, s, [step]) == Apply(c, s, step)
  {
  }

  lemma ClockForward(c: Config, s: State, step: Step)
    requires c.limits.windowSeconds > 0
    ensures Apply(c, s, step).clock >= s.clock
  {
  }

  /** One more step at the end of an execution. */
  lemma ExecuteSnoc(c: Config, s: State, steps: seq<Step>, step: Step)
    requires c.limits.windowSeconds > 0
    ensures Execute(c, s, steps + [step]) == Apply(c, Execute(c, s, steps), step)
  {
    ExecuteConcat(c, s, steps, [step]);
    One(c, Execute(c, s, steps), step);
  }

  // ---------------------------------------------------------------------------------------
  // Ending an abandoned attempt
  // ---------------------------------------------------------------------------------------

  /** Steps that need no worker to report anything: time, the broker, claims and the repairs. */
  predicate Unattended(step: Step) {
    step.Tick? || step.Publish? || step.Deliver? || step.Claim? || step.Recover? || step.Schedule?
  }

  ghost predicate AllUnattended(steps: seq<Step>) {
    forall i :: 0 <= i < |steps| ==> Unattended(steps[i])
  }

  lemma UnattendedConcat(a: seq<Step>, b: seq<Step>)
    requires AllUnattended(a) && AllUnattended(b)
    ensures AllUnattended(a + b)
  {
  }

  /** The run's own rows, apart from its history, are as they were. */
  ghost predicate SameRun(e: Entry, e': Entry) {
    e'.run == e.run && e'.attempts == e.attempts && e'.accepted == e.accepted
  }

  /** Writing one run's rows leaves every other run's own state alone. */
  lemma WriteRowsTouches(s: State, r: nat, e: Entry)
    requires r < |s.entries| && !LacksRecord(e)
    ensures var s' := WriteRows(s, r, e);
            && s'.clock == s.clock && |s'.entries| == |s.entries|
            && SameRun(e, s'.entries[r]) && s'.entries[r].deliveries == e.deliveries
            && forall k :: 0 <= k < |s.entries| && k != r ==>
                 SameRun(s.entries[k], s'.entries[k]) && s'.entries[k].deliveries == s.entries[k].deliveries
  {
  }

  /** Run `r` has stopped running with the attempts it had, and no other run has changed. */
  ghost predicate Ended(s: State, s': State, r: nat) {
    && |s'.entries| == |s.entries| && r < |s.entries|
    && !s'.entries[r].run.status.Running? && !s'.entries[r].run.status.Queued?
    && |s'.entries[r].attempts| == |s.entries[r].attempts| && s'.entries[r].accepted == s.entries[r].accepted
    && forall k :: 0 <= k < |s.entries| && k != r ==>
         SameRun(s.entries[k], s'.entries[k]) && s'.entries[k].deliveries == s.entries[k].deliveries
  }

  lemma RecoveredEnds(c: Config, clock: Time, e: Entry, now: Time)
    requires EntryOk(c, clock, e) && LeaseIsStale(e, now)
    ensures RecoveredRows(e, now).Some?
    ensures var e' := RecoveredRows(e, now).value;
            && e'.accepted == e.accepted && e'.evaluation == e.evaluation
            && !e'.run.status.Running? && !e'.run.status.Queued? && |e'.attempts| == |e.attempts|
  {
    OpenAttemptIsLast(e.attempts);
    assert RecoveredRows(e, now) == Some(FailedRows(e, Policy(e).value, |e.attempts| - 1, now, LeaseExpired));
  }

  /** Recovering a stale lease ends that run's attempt and touches no other run. */
  lemma RecoverEnds(c: Config, s: State, r: nat, now: Time)
    requires Inv(c, s) && r < |s.entries| && LeaseIsStale(s.entries[r], now)
    ensures Ended(s, RecoverTx(s, r, now), r) && RecoverTx(s, r, now).clock == s.clock
  {
    assert EntryOk(c, s.clock, s.entries[r]);
    RecoveredEnds(c, s.clock, s.entries[r], now);
    WriteRowsTouches(s, r, RecoveredRows(s.entries[r], now).value);
  }

  /** Waiting until a lease has run out. */
  function Patience(s: State, r: nat): Time
    requires r < |s.entries|
  {
    var expires := s.entries[r].run.leaseExpires;
    if expires.Some? && expires.value > s.clock then expires.value - s.clock else 0.0
  }

  /** One step without a report, as a list. */
  lemma Once(c: Config, s: State, a: Step) returns (steps: seq<Step>)
    requires c.limits.windowSeconds > 0 && Unattended(a)
    ensures AllUnattended(steps) && Execute(c, s, steps) == Apply(c, s, a)
  {
    steps := [a];
    One(c, s, a);
  }

  /** Two of them. */
  lemma InTurn(c: Config, s: State, a: Step, b: Step) returns (steps: seq<Step>)
    requires c.limits.windowSeconds > 0 && Unattended(a) && Unattended(b)
    ensures AllUnattended(steps) && Execute(c, s, steps) == Apply(c, Apply(c, s, a), b)
  {
    steps := [a] + [b];
    One(c, s, a);
    ExecuteSnoc(c, s, [a], b);
  }

  /** Time passes, and then one more of them. */
  lemma WaitFor(c: Config, s: State, wait: Time, b: Step) returns (steps: seq<Step>)
    requires c.limits.windowSeconds > 0 && Unattended(b)
    ensures AllUnattended(steps) && Execute(c, s, steps) == Apply(c, TickStep(s, wait), b)
  {
    steps := InTurn(c, s, Tick(wait), b);
  }

  lemma WaitAndRecover(c: Config, s: State, wait: Time, r: nat, now: Time) returns (steps: seq<Step>)
    requires c.limits.windowSeconds > 0
    ensures AllUnattended(steps) && Execute(c, s, steps) == RecoverStep(TickStep(s, wait), r, now)
  {
    steps := WaitFor(c, s, wait, Recover(r, now));
  }

  lemma WaitAndSchedule(c: Config, s: State, wait: Time, r: nat, now: Time) returns (steps: seq<Step>)
    requires c.limits.windowSeconds > 0
    ensures AllUnattended(steps) && Execute(c, s, steps) == ScheduleStep(TickStep(s, wait), r, now)
  {
    steps := WaitFor(c, s, wait, Schedule(r, now));
  }

  lemma ClaimOnce(c: Config, s: State, r: nat, d: nat, seen: Observed) returns (steps: seq<Step>)
    requires c.limits.windowSeconds > 0
    ensures AllUnattended(steps) && Execute(c, s, steps) == ClaimDelivery(c, s, r, d, 0, seen)
  {
    steps := Once(c, s, Claim(r, d, 0, seen));
  }

  lemma OutlastLease(c: Config, s: State, r: nat) returns (wait: Time, later: State)
    requires Inv(c, s) && r < |s.entries| && s.entries[r].run.status.Running?
    ensures later == TickStep(s, wait) && Inv(c, later) && later.entries == s.entries && LeaseIsStale(s.entries[r], later.clock)
  {
    assert EntryOk(c, s.clock, s.entries[r]);
    wait := Patience(s, r);
    later := TickStep(s, wait);
    TickKeeps(c, s, wait);
  }

  lemma RecoveryEnds(c: Config, s: State, r: nat, now: Time)
    requires Inv(c, s) && r < |s.entries| && LeaseIsStale(s.entries[r], now) && now <= s.clock
    ensures var s' := RecoverStep(s, r, now); Inv(c, s') && Ended(s, s', r)
  {
    RecoverEnds(c, s, r, now);
    RecoverKeeps(c, s, r, now);
  }

  /** The worker of run `r` has gone: its lease runs out and the recovery takes the run back. */
  lemma Abandon(c: Config, s: State, r: nat) returns (steps: seq<Step>)
    requires Inv(c, s) && r < |s.entries| && s.entries[r].run.status.Running?
    ensures AllUnattended(steps)
    ensures var s' := Execute(c, s, steps); Inv(c, s') && Ended(s, s', r)
  {
    var wait, later := OutlastLease(c, s, r);
    RecoveryEnds(c, later, r, later.clock);
    EndedFrom(s, later, RecoverStep(later, r, later.clock), r);
    steps := WaitAndRecover(c, s, wait, r, later.clock);
  }

  lemma EndedFrom(s: State, later: State, s': State, r: nat)
    requires later.entries == s.entries && Ended(later, s', r)
    ensures Ended(s, s', r)
  {
  }

  // ---------------------------------------------------------------------------------------
  // Freeing capacity
  // ---------------------------------------------------------------------------------------

  ghost predicate Waiting(s: State, r: nat, d: nat) {
    DeliveredAs(s, r, d, Undecided) && s.entries[r].run.status.Queued?
  }

  /** None of the first `i` runs is running. */
  ghost predicate IdleBelow(entries: seq<Entry>, i: nat) {
    forall k :: 0 <= k < i && k < |entries| ==> !entries[k].run.status.Running?
  }

  /** Run `r` is where it was, with its message in front of a worker. */
  ghost predicate StillWaiting(s: State, s': State, r: nat, d: nat) {
    Waiting(s', r, d) && r < |s.entries| && SameRun(s.entries[r], s'.entries[r])
  }

  lemma DrainOne(s: State, s': State, i: nat, r: nat, d: nat)
    requires Ended(s, s', i) && s.entries[i].run.status.Running? && Waiting(s, r, d) && IdleBelow(s.entries, i)
    ensures StillWaiting(s, s', r, d) && IdleBelow(s'.entries, i + 1)
  {
  }

  lemma StillWaitingTrans(s: State, s1: State, s2: State, r: nat, d: nat)
    requires StillWaiting(s, s1, r, d) && StillWaiting(s1, s2, r, d)
    ensures StillWaiting(s, s2, r, d)
  {
  }

  /** If run `i` is running, it is abandoned. */
  lemma Clear(c: Config, s: State, i: nat, r: nat, d: nat) returns (steps: seq<Step>)
    requires Inv(c, s) && i < |s.entries| && Waiting(s, r, d) && IdleBelow(s.entries, i)
    ensures AllUnattended(steps)
    ensures var s' := Execute(c, s, steps);
            Inv(c, s') && |s'.entries| == |s.entries| && StillWaiting(s, s', r, d) && IdleBelow(s'.entries, i + 1)
  {
    if s.entries[i].run.status.Running? {
      steps := Abandon(c, s, i);
      DrainOne(s, Execute(c, s, steps), i, r, d);
    } else {
      steps := [];
    }
  }

  /** Lets every running attempt from entry `i` on be abandoned. */
  lemma {:induction false} Drain(c: Config, s: State, i: nat, r: nat, d: nat) returns (steps: seq<Step>)
    requires Inv(c, s) && i <= |s.entries| && Waiting(s, r, d) && IdleBelow(s.entries, i)
    ensures AllUnattended(steps)
    ensures var s' := Execute(c, s, steps);
            Inv(c, s') && StillWaiting(s, s', r, d) && IdleBelow(s'.entries, |s'.entries|)
    decreases |s.entries| - i
  {
    if i == |s.entries| {
      steps := [];
    } else {
      var first := Clear(c, s, i, r, d);
      var s1 := Execute(c, s, first);
      var rest := Drain(c, s1, i + 1, r, d);
      ExecuteConcat(c, s, first, rest);
      UnattendedConcat(first, rest);
      StillWaitingTrans(s, s1, Execute(c, s1, rest), r, d);
      steps := first + rest;
    }
  }

  lemma {:induction false} NoneRunning(entries: seq<Entry>, scope: Quota.Scope)
    requires IdleBelow(entries, |entries|)
    ensures RunningIn(entries, scope) == 0
  {
    if entries != [] {
      NoneRunning(entries[..|entries| - 1], scope);
    }
  }

  // ---------------------------------------------------------------------------------------
  // Towards a worker, and past it
  // ---------------------------------------------------------------------------------------

  lemma Delivered(s: State, r: nat)
    requires r < |s.entries| && s.entries[r].run.status.Queued? && s.entries[r].queued > 0
    ensures StillWaiting(s, DeliverTx(s, r), r, |s.entries[r].deliveries|)
  {
  }

  lemma Published(s: State, r: nat, i: nat)
    requires r < |s.entries| && s.entries[r].run.status.Queued? && Unpublished(s.entries[r].outbox, i)
    ensures StillWaiting(s, DeliverTx(PublishTx(s, r, i, Confirmed), r), r, |s.entries[r].deliveries|)
  {
  }

  /** A queued run's message can always be brought in front of a worker. */
  lemma Bring(c: Config, s: State, r: nat) returns (steps: seq<Step>, d: nat)
    requires Inv(c, s) && r < |s.entries| && s.entries[r].run.status.Queued?
    ensures AllUnattended(steps)
    ensures Inv(c, Execute(c, s, steps)) && StillWaiting(s, Execute(c, s, steps), r, d)
  {
    var e := s.entries[r];
    assert EntryOk(c, s.clock, e);
    if e.queued > 0 {
      d := |e.deliveries|;
      Delivered(s, r);
      steps := Once(c, s, Deliver(r));
    } else if i: nat :| Unpublished(e.outbox, i) {
      d := |e.deliveries|;
      Published(s, r, i);
      steps := InTurn(c, s, Publish(r, i, Confirmed), Deliver(r));
    } else {
      steps := [];
      d :| AwaitsDecision(e.deliveries, d);
    }
    ExecuteKeeps(c, s, steps);
  }

  /** A claim on counts that cover what is there writes the claimed rows. */
  lemma ClaimWrites(c: Config, s: State, r: nat, d: nat, worker: Ident, seen: Observed)
    requires CoversRunning(s, r, seen) && SampledInQueue(s, r, seen) && seen.txStart <= s.clock && !LacksRecord(s.entries[r])
    ensures var e' := ClaimRows(c, s.entries[r], worker, seen).0;
            var s' := ClaimDelivery(c, s, r, d, worker, seen);
            |s'.entries| == |s.entries| && (!LacksRecord(e') ==> SameRun(e', s'.entries[r]))
  {
    var e' := ClaimRows(c, s.entries[r], worker, seen).0;
    if !LacksRecord(e') {
      WriteRowsTouches(s, r, e');
    }
  }

  function Alone(s: State): Observed { Observed(s.clock, s.clock, 0, 0) }

  /** With capacity free, a claim opens a new attempt of a waiting run or ends the run. */
  lemma ClaimProceeds(c: Config, s: State, r: nat, d: nat, worker: Ident)
    requires Inv(c, s) && Waiting(s, r, d) && IdleBelow(s.entries, |s.entries|)
    ensures var s' := ClaimDelivery(c, s, r, d, worker, Alone(s));
            && Inv(c, s') && r < |s'.entries| && Opened(s.entries[r], s'.entries[r])
  {
    var e := s.entries[r];
    NoneRunning(s.entries, Quota.PrincipalScope(e.accepted.principal));
    NoneRunning(s.entries, Quota.TenantScope(e.accepted.client));
    assert EntryOk(c, s.clock, e) && !LacksRecord(e);
    assert CoversRunning(s, r, Alone(s));
    ClaimUnderCapacity(c, e, worker, Alone(s));
    ClaimWrites(c, s, r, d, worker, Alone(s));
    ClaimKeeps(c, s, r, d, worker, Alone(s));
  }

  ghost predicate Opened(e: Entry, e': Entry) {
    && e'.accepted == e.accepted
    && (if e'.run.status.Running? then |e'.attempts| == |e.attempts| + 1 else e'.run.status.Failed? && |e'.attempts| == |e.attempts|)
  }

  lemma ClaimUnderCapacity(c: Config, e: Entry, worker: Ident, seen: Observed)
    requires e.run.status.Queued? && !CapacityFull(c, seen)
    ensures var e' := ClaimRows(c, e, worker, seen).0; Opened(e, e') && e'.evaluation == e.evaluation
  {
  }

  /** From the queue to a new attempt, or to the end, with every other worker gone. */
  lemma ClaimQueued(c: Config, s: State, r: nat) returns (steps: seq<Step>)
    requires Inv(c, s) && r < |s.entries| && s.entries[r].run.status.Queued?
    ensures AllUnattended(steps)
    ensures var s' := Execute(c, s, steps);
            Inv(c, s') && r < |s'.entries| && Opened(s.entries[r], s'.entries[r])
  {
    var bring, d := Bring(c, s, r);
    var s1 := Execute(c, s, bring);
    var claim := ClaimWaiting(c, s1, r, d);
    ExecuteConcat(c, s, bring, claim);
    steps := bring + claim;
  }

  lemma ClaimWaiting(c: Config, s: State, r: nat, d: nat) returns (steps: seq<Step>)
    requires Inv(c, s) && Waiting(s, r, d)
    ensures AllUnattended(steps)
    ensures var s' := Execute(c, s, steps);
            Inv(c, s') && r < |s'.entries| && Opened(s.entries[r], s'.entries[r])
  {
    var drain := Drain(c, s, 0, r, d);
    var s1 := Execute(c, s, drain);
    ClaimProceeds(c, s1, r, d, 0);
    var claim := ClaimOnce(c, s1, r, d, Alone(s1));
    ExecuteConcat(c, s, drain, claim);
    OpenedFrom(s.entries[r], s1.entries[r], ClaimDelivery(c, s1, r, d, 0, Alone(s1)).entries[r]);
    UnattendedConcat(drain, claim);
    steps := drain + claim;
  }

  lemma OpenedFrom(e: Entry, e1: Entry, e': Entry)
    requires SameRun(e, e1) && Opened(e1, e')
    ensures Opened(e, e')
  {
  }

  /** Waiting out the backoff and scheduling the retry. */
  lemma Requeue(c: Config, s: State, r: nat) returns (steps: seq<Step>)
    requires Inv(c, s) && r < |s.entries| && s.entries[r].run.status.RetryScheduled?
    ensures AllUnattended(steps)
    ensures var s' := Execute(c, s, steps);
            && Inv(c, s') && r < |s'.entries| && s'.entries[r].run.status.Queued?
            && s'.entries[r].attempts == s.entries[r].attempts && s'.entries[r].accepted == s.entries[r].accepted
  {
    assert EntryOk(c, s.clock, s.entries[r]);
    var due := s.entries[r].run.nextAttemptAt.value;
    var wait := if due > s.clock then due - s.clock else 0.0;
    var s1 := TickStep(s, wait);
    TickKeeps(c, s, wait);
    ScheduleKeeps(c, s1, r, s1.clock);
    steps := WaitAndSchedule(c, s, wait, r, s1.clock);
  }

  // ---------------------------------------------------------------------------------------
  // To the end
  // ---------------------------------------------------------------------------------------

  ghost function AttemptsLeft(c: Config, e: Entry): nat {
    if AllowedAttempts(c, e) > |e.attempts| then AllowedAttempts(c, e) - |e.attempts| else 0
  }

  function Distance(status: ExecutionStatus): nat {
    match status
    case Running => 3
    case RetryScheduled => 2
    case Queued => 1
    case _ => 0
  }

  /** With nobody reporting, every attempt is abandoned in turn until none is left. */
  lemma {:induction false} FinishUnattended(c: Config, s: State, r: nat) returns (steps: seq<Step>)
    requires Inv(c, s) && r < |s.entries|
    ensures AllUnattended(steps)
    ensures r < |Execute(c, s, steps).entries| && Terminal(Execute(c, s, steps).entries[r].run.status)
    decreases AttemptsLeft(c, s.entries[r]), Distance(s.entries[r].run.status)
  {
    if Terminal(s.entries[r].run.status) {
      steps := [];
    } else {
      var first := Advance(c, s, r);
      var s1 := Execute(c, s, first);
      var rest := FinishUnattended(c, s1, r);
      ExecuteConcat(c, s, first, rest);
      steps := first + rest;
    }
  }

  /** Closer to the end: fewer attempts left, or as many and nearer to the next one. */
  ghost predicate Closer(c: Config, e: Entry, e': Entry) {
    || AttemptsLeft(c, e') < AttemptsLeft(c, e)
    || (AttemptsLeft(c, e') == AttemptsLeft(c, e) && Distance(e'.run.status) < Distance(e.run.status))
  }

  lemma Advance(c: Config, s: State, r: nat) returns (steps: seq<Step>)
    requires Inv(c, s) && r < |s.entries| && !Terminal(s.entries[r].run.status)
    ensures AllUnattended(steps)
    ensures var s' := Execute(c, s, steps);
            Inv(c, s') && r < |s'.entries| && Closer(c, s.entries[r], s'.entries[r])
  {
    match s.entries[r].run.status {
      case Running =>
        steps := Abandon(c, s, r);
      case RetryScheduled =>
        steps := Requeue(c, s, r);
      case Queued =>
        steps := ClaimQueued(c, s, r);
        OpenedIsCloser(c, s, Execute(c, s, steps), r);
    }
  }

  lemma OpenedIsCloser(c: Config, s: State, s': State, r: nat)
    requires Inv(c, s') && r < |s.entries| && r < |s'.entries| && s.entries[r].run.status.Queued? && Opened(s.entries[r], s'.entries[r])
    ensures Closer(c, s.entries[r], s'.entries[r])
  {
    assert EntryOk(c, s'.clock, s'.entries[r]);
  }

  /**
   From every reachable state, every run can still be brought to a terminal status, even if from
   now on no worker reports anything any more: leases run out, the recovery and the scheduler take
   the run back, and each redelivery opens one more attempt until none is left.
   */
  lemma EveryRunCanFinish(c: Config, steps: seq<Step>, r: nat) returns (more: seq<Step>)
    requires ValidConfig(c) && r < |After(c, steps).entries|
    ensures AllUnattended(more)
    ensures r < |After(c, steps + more).entries| && Terminal(After(c, steps + more).entries[r].run.status)
  {
    Reached(c, steps);
    more := FinishUnattended(c, After(c, steps), r);
    ExecuteConcat(c, INITIAL, steps, more);
  }
}
