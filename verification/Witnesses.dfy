/** Concrete executions that show where a promise of the runtime has an edge. */
module Witnesses {
  import opened Domain
  import opened Retry
  import opened Tables
  import opened Transitions
  import opened Protocol
  import opened Guarantees
  import opened Idempotency
  import opened Liveness
  import opened Mirror
  import Quota

  const ROOMY := Config(10.0, 3, 9, 9, 9, 9, Quota.Limits(9, 9, 60), 60.0, 1, 2)

  const FREE := Observed(0.0, 0.0, 0, 0)

  const FREE_LATER := Observed(0.0, 1.0, 0, 0)

  /** The policy that an empty snapshot stands for. */
  const DEFAULTS := RetryPolicy(3, 60.0, 1.0, 60.0, ["deterministic"])

  lemma DefaultsAreRead()
    ensures FromSnapshot(map[]) == Ok(DEFAULTS)
  {
    SilenceIsDefault(map[]);
  }

  const JOB := RetryPolicy(1, 60.0, 1.0, 1.0, ["deterministic"])

  // ---------------------------------------------------------------------------------------
  // A run that succeeds
  // ---------------------------------------------------------------------------------------

  const GOOD := Payload(0, true)

  const FIRST := Submission(1, None, ExecutionWork, 0, Document(0), map[])

  function Fresh(): Entry {
    NewEntry(AcceptedSubmission(FIRST), RunQueued, None, 0.0)
  }

  function Claimed0(): Entry {
    DefaultsAreRead();
    Leased(ROOMY, Fresh(), DEFAULTS, 1, 7, 0.0, 0.0)
  }

  function Done0(): Entry {
    SucceededRows(Claimed0(), 0, 0.0, GOOD, "deterministic")
  }

  lemma Submitted()
    ensures Apply(ROOMY, INITIAL, Submit(FIRST, FREE)) == State(0.0, [Fresh()], Quota.EMPTY)
  {
  }

  lemma ClaimedFirst()
    ensures Apply(ROOMY, State(0.0, [Fresh()], Quota.EMPTY), Claim(0, 0, 7, FREE)) == State(0.0, [Claimed0()], Quota.EMPTY)
  {
    DefaultsAreRead();
    var s := State(0.0, [Fresh()], Quota.EMPTY);
    assert s.entries[..0] == [];
    assert RunningIn(s.entries, Quota.PrincipalScope(1)) == 0 && RunningIn(s.entries, Quota.TenantScope(1)) == 0;
    assert CoversRunning(s, 0, FREE);
    assert MaxNumber([]) == 0;
    assert ClaimRows(ROOMY, Fresh(), 7, FREE).0 == Claimed0();
    assert s.entries[0 := Claimed0()] == [Claimed0()];
  }

  lemma FinishedFirst()
    ensures Apply(ROOMY, State(0.0, [Claimed0()], Quota.EMPTY), Complete(0, 0, 7, 0.0, SuccessReport(GOOD, "deterministic")))
         == State(0.0, [Done0()], Quota.EMPTY)
  {
  }

  // ---------------------------------------------------------------------------------------
  // Two evaluations of it, the second with an older stamp
  // ---------------------------------------------------------------------------------------

  const LATE := EvaluateRequest(1, None, 0, 0, 1, 0, 1.0)

  const EARLY := EvaluateRequest(1, None, 0, 0, 2, 1, 0.5)

  function Evaluated(): Entry {
    MirroredSource(Done0(), 1, Pending, true)
  }

  function JobQueued(): Entry {
    NewEntry(AcceptedJob(ROOMY, LATE), RunQueued, Some(Requested(LATE)), 1.0)
  }

  function JobRunning(): Entry {
    JobPolicyIsRead(ROOMY);
    Leased(ROOMY, JobQueued(), JOB, 1, 7, 1.0, 0.0)
  }

  function JobDone(): Entry {
    ClosedEvaluation(SucceededRows(JobRunning(), 0, 1.0, GOOD, "evaluation"))
  }

  function Judged(): Entry {
    MirroredSource(Evaluated(), 1, Passed, true)
  }

  lemma NoOneRuns(entries: seq<Entry>, scope: Quota.Scope)
    requires |entries| == 2 && !entries[0].run.status.Running? && !entries[1].run.status.Running?
    ensures RunningIn(entries, scope) == 0
  {
    assert entries[..1][..0] == [];
    assert RunningIn(entries[..1], scope) == 0;
  }

  lemma LateAccepted()
    ensures Apply(ROOMY, State(1.0, [Done0()], Quota.EMPTY), Evaluate(LATE, FREE)) == State(1.0, [Evaluated(), JobQueued()], Quota.EMPTY)
  {
  }

  lemma JobRows()
    ensures ClaimRows(ROOMY, JobQueued(), 7, FREE_LATER).0 == JobRunning()
  {
    JobPolicyIsRead(ROOMY);
    assert MaxNumber([]) == 0;
  }

  lemma JobClaimed()
    ensures Apply(ROOMY, State(1.0, [Evaluated(), JobQueued()], Quota.EMPTY), Claim(1, 0, 7, FREE_LATER))
         == State(1.0, [Evaluated(), JobRunning()], Quota.EMPTY)
  {
    var s := State(1.0, [Evaluated(), JobQueued()], Quota.EMPTY);
    NoOneRuns(s.entries, Quota.PrincipalScope(1));
    NoOneRuns(s.entries, Quota.TenantScope(1));
    assert CoversRunning(s, 1, FREE_LATER);
    JobRows();
    assert s.entries[1 := JobRunning()] == [Evaluated(), JobRunning()];
  }

  lemma JobFinished()
    ensures Apply(ROOMY, State(1.0, [Evaluated(), JobRunning()], Quota.EMPTY), Complete(1, 0, 7, 1.0, SuccessReport(GOOD, "evaluation")))
         == State(1.0, [Judged(), JobDone()], Quota.EMPTY)
  {
  }

  lemma EarlyAccepted()
    ensures !MirrorOk(Apply(ROOMY, State(1.0, [Judged(), JobDone()], Quota.EMPTY), Evaluate(EARLY, FREE)).entries)
  {
    var s := State(1.0, [Judged(), JobDone()], Quota.EMPTY);
    assert s.entries[..1][..0] == [] && s.entries[..1] == [Judged()];
    assert ActiveIn(s.entries[..1], Quota.PrincipalScope(1)) == 0 && ActiveIn(s.entries[..1], Quota.TenantScope(1)) == 0;
    assert CoversActive(s, 1, 1, FREE);
    assert FindByKey([], 1, 2).None? && FindByKey([Judged()], 1, 2).None? && FindByKey(s.entries, 1, 2).None?;
    var last := NewEntry(AcceptedJob(ROOMY, EARLY), RunQueued, Some(Requested(EARLY)), 1.0);
    var after := [MirroredSource(Judged(), 2, Pending, true), JobDone(), last];
    assert s.entries[0 := after[0]] + [last] == after;
    assert Apply(ROOMY, s, Evaluate(EARLY, FREE)).entries == after;
    assert Evaluates(after[1], 0) && IsLatest(after, 1);
    assert !MirrorAt(after, 0);
  }

  const PRELUDE := [Submit(FIRST, FREE), Claim(0, 0, 7, FREE), Complete(0, 0, 7, 0.0, SuccessReport(GOOD, "deterministic"))]

  lemma PreludeSucceeds()
    ensures After(ROOMY, PRELUDE) == State(0.0, [Done0()], Quota.EMPTY)
  {
    Submitted();
    ClaimedFirst();
    FinishedFirst();
    assert PRELUDE == [PRELUDE[0]] + [PRELUDE[1]] + [PRELUDE[2]];
    One(ROOMY, INITIAL, PRELUDE[0]);
    ExecuteSnoc(ROOMY, INITIAL, [PRELUDE[0]], PRELUDE[1]);
    ExecuteSnoc(ROOMY, INITIAL, [PRELUDE[0]] + [PRELUDE[1]], PRELUDE[2]);
  }

  /**
   The mirror can break: an evaluation whose transaction started early but committed after a
   later one had been judged leaves the source PENDING although its latest evaluation PASSED.
   */
  lemma OutOfOrderStampBreaksMirror() returns (steps: seq<Step>)
    ensures ValidConfig(ROOMY) && !MirrorOk(After(ROOMY, steps).entries)
  {
    PreludeSucceeds();
    var s1 := State(0.0, [Done0()], Quota.EMPTY);
    steps := PRELUDE + [Tick(1.0)];
    ExecuteSnoc(ROOMY, INITIAL, PRELUDE, Tick(1.0));
    LateAccepted();
    ExecuteSnoc(ROOMY, INITIAL, steps, Evaluate(LATE, FREE));
    steps := steps + [Evaluate(LATE, FREE)];
    JobClaimed();
    ExecuteSnoc(ROOMY, INITIAL, steps, Claim(1, 0, 7, FREE_LATER));
    steps := steps + [Claim(1, 0, 7, FREE_LATER)];
    JobFinished();
    ExecuteSnoc(ROOMY, INITIAL, steps, Complete(1, 0, 7, 1.0, SuccessReport(GOOD, "evaluation")));
    steps := steps + [Complete(1, 0, 7, 1.0, SuccessReport(GOOD, "evaluation"))];
    EarlyAccepted();
    ExecuteSnoc(ROOMY, INITIAL, steps, Evaluate(EARLY, FREE));
    steps := steps + [Evaluate(EARLY, FREE)];
  }

  // ---------------------------------------------------------------------------------------
  // A policy that allows more attempts than the worker
  // ---------------------------------------------------------------------------------------

  const TIGHT := ROOMY.(maxAttempts := 1)

  function TimedOut(): Entry {
    DefaultsAreRead();
    FailedRows(Claimed0(), DEFAULTS, 0, 0.0, ProviderTimeout)
  }

  lemma TightSubmitted()
    ensures After(TIGHT, [Submit(FIRST, FREE)]) == State(0.0, [Fresh()], Quota.EMPTY)
  {
    assert FindByKey([], 1, 0).None?;
    assert [] + [Fresh()] == [Fresh()];
    One(TIGHT, INITIAL, Submit(FIRST, FREE));
  }

  lemma TightClaimed()
    ensures Apply(TIGHT, State(0.0, [Fresh()], Quota.EMPTY), Claim(0, 0, 7, FREE)) == State(0.0, [Claimed0()], Quota.EMPTY)
  {
    DefaultsAreRead();
    var s := State(0.0, [Fresh()], Quota.EMPTY);
    assert s.entries[..0] == [];
    assert RunningIn(s.entries, Quota.PrincipalScope(1)) == 0 && RunningIn(s.entries, Quota.TenantScope(1)) == 0;
    assert CoversRunning(s, 0, FREE);
    assert MaxNumber([]) == 0;
    assert ClaimRows(TIGHT, Fresh(), 7, FREE).0 == Claimed0();
    assert s.entries[0 := Claimed0()] == [Claimed0()];
  }

  lemma TightBegins()
    ensures After(TIGHT, [Submit(FIRST, FREE)] + [Claim(0, 0, 7, FREE)]) == State(0.0, [Claimed0()], Quota.EMPTY)
  {
    TightSubmitted();
    TightClaimed();
    ExecuteSnoc(TIGHT, INITIAL, [Submit(FIRST, FREE)], Claim(0, 0, 7, FREE));
  }

  lemma TightFails()
    ensures Apply(TIGHT, State(0.0, [Claimed0()], Quota.EMPTY), Complete(0, 0, 7, 0.0, FailureReport(ProviderTimeout)))
         == State(0.0, [TimedOut()], Quota.EMPTY)
    ensures TimedOut().run.status.RetryScheduled? && TimedOut().run.nextAttemptAt == Some(1.0)
  {
    DefaultsAreRead();
    var s := State(0.0, [Claimed0()], Quota.EMPTY);
    assert MayComplete(Claimed0(), 0, 7, 0.0);
    assert Delay(DEFAULTS, 1) == 1.0;
    assert s.entries[0 := TimedOut()] == [TimedOut()];
  }

  function Requeued0(): Entry {
    RequeuedRows(TimedOut(), 1.0)
  }

  lemma TightRequeues()
    ensures Apply(TIGHT, State(1.0, [TimedOut()], Quota.EMPTY), Schedule(0, 1.0)) == State(1.0, [Requeued0()], Quota.EMPTY)
  {
  }

  lemma RequeuedShape()
    ensures Policy(Requeued0()) == Ok(DEFAULTS) && |Requeued0().attempts| == 1 && Requeued0().attempts[0].retryable
    ensures Requeued0().run.status.Queued? && MaxNumber(Requeued0().attempts) == 1
  {
    DefaultsAreRead();
    var e := Requeued0();
    assert e.attempts[..0] == [] && MaxNumber([]) == 0;
  }

  lemma TightRejects()
    ensures ClaimRows(TIGHT, Requeued0(), 7, FREE_LATER).0 == PolicyRejected(Requeued0(), 1.0)
    ensures Policy(Requeued0()) == Ok(DEFAULTS) && |Requeued0().attempts| == 1 && Requeued0().attempts[0].retryable
  {
    RequeuedShape();
  }

  lemma TightGivesUp()
    ensures Apply(TIGHT, State(1.0, [Requeued0()], Quota.EMPTY), Claim(0, 0, 7, FREE_LATER))
         == State(1.0, [PolicyRejected(Requeued0(), 1.0)], Quota.EMPTY)
  {
    TightRejects();
    var s := State(1.0, [Requeued0()], Quota.EMPTY);
    assert s.entries[..0] == [];
    assert RunningIn(s.entries, Quota.PrincipalScope(1)) == 0 && RunningIn(s.entries, Quota.TenantScope(1)) == 0;
    assert CoversRunning(s, 0, FREE_LATER);
    assert s.entries[0 := PolicyRejected(Requeued0(), 1.0)] == [PolicyRejected(Requeued0(), 1.0)];
  }

  /**
   With a stored policy above the worker's cap, a run whose retries run out ends FAILED and not
   DEAD_LETTERED, although its policy would have allowed another attempt.
   */
  lemma WorkerCapEndsRetriesEarly() returns (steps: seq<Step>)
    ensures ValidConfig(TIGHT)
    ensures var s := After(TIGHT, steps);
            && |s.entries| == 1 && s.entries[0].run.status.Failed? && |s.entries[0].attempts| == 1
            && s.entries[0].attempts[0].retryable && Policy(s.entries[0]) == Ok(DEFAULTS)
  {
    TightBegins();
    steps := [Submit(FIRST, FREE)] + [Claim(0, 0, 7, FREE)];
    TightFails();
    ExecuteSnoc(TIGHT, INITIAL, steps, Complete(0, 0, 7, 0.0, FailureReport(ProviderTimeout)));
    steps := steps + [Complete(0, 0, 7, 0.0, FailureReport(ProviderTimeout))];
    ExecuteSnoc(TIGHT, INITIAL, steps, Tick(1.0));
    steps := steps + [Tick(1.0)];
    TightRequeues();
    TightRejects();
    TightGivesUp();
    ExecuteSnoc(TIGHT, INITIAL, steps, Schedule(0, 1.0));
    steps := steps + [Schedule(0, 1.0)];
    ExecuteSnoc(TIGHT, INITIAL, steps, Claim(0, 0, 7, FREE_LATER));
    steps := steps + [Claim(0, 0, 7, FREE_LATER)];
  }

  // ---------------------------------------------------------------------------------------
  // A submission that is answered with a replay
  // ---------------------------------------------------------------------------------------

  const AGAIN := ReplayRequest(1, None, 0, 5)

  const LOOKALIKE := Submission(1, None, ExecutionWork, 5, ReplayOf(0, Document(0)), map[])

  lemma ReplayAccepted() returns (s': State)
    ensures s' == Apply(ROOMY, State(0.0, [Done0()], Quota.EMPTY), Replay(AGAIN, FREE))
    ensures |s'.entries| == 2 && s'.entries[1].accepted == Accepted(1, 1, ExecutionWork, 5, Request(ReplayOf(0, Document(0)), map[]), Document(0), map[], Some(0))
  {
    var s := State(0.0, [Done0()], Quota.EMPTY);
    assert s.entries[..0] == [];
    assert ActiveIn(s.entries, Quota.PrincipalScope(1)) == 0 && ActiveIn(s.entries, Quota.TenantScope(1)) == 0;
    assert CoversActive(s, 1, 1, FREE);
    assert FindByKey([], 1, 5).None? && FindByKey(s.entries, 1, 5).None?;
    s' := Apply(ROOMY, s, Replay(AGAIN, FREE));
  }

  /** Submitting the wrapped document under a replay's key returns the replay, whose input is not that document. */
  lemma SubmissionCanMeetAReplay() returns (steps: seq<Step>)
    ensures var s := After(ROOMY, steps);
            && SubmitTx(ROOMY, s, LOOKALIKE, FREE).1 == Existing(1)
            && |s.entries| == 2 && s.entries[1].accepted.replayOf == Some(0) && s.entries[1].accepted.input != LOOKALIKE.input
  {
    PreludeSucceeds();
    steps := PRELUDE + [Replay(AGAIN, FREE)];
    ExecuteSnoc(ROOMY, INITIAL, PRELUDE, Replay(AGAIN, FREE));
    var s := ReplayAccepted();
    assert FindByKey(s.entries, 1, 5) == Some(1);
  }

  // ---------------------------------------------------------------------------------------
  // A policy that poses as another kind of work
  // ---------------------------------------------------------------------------------------

  const POSING := Submission(1, None, ExecutionWork, 0, Document(0), map[WorkKindName := TextValue("regression")])

  const GENUINE := Submission(1, None, RegressionWork, 0, Document(0), map[])

  /** A policy with a field for the work kind makes an execution pass for a regression on the same key. */
  lemma KindCanBeMimicked()
    ensures SubmitTx(ROOMY, After(ROOMY, [Submit(POSING, FREE)]), GENUINE, FREE).1 == Existing(0)
    ensures After(ROOMY, [Submit(POSING, FREE)]).entries[0].accepted.kind != GENUINE.kind
  {
    One(ROOMY, INITIAL, Submit(POSING, FREE));
    var s := Apply(ROOMY, INITIAL, Submit(POSING, FREE));
    assert s.entries[..0] == [] && |s.entries| == 1;
    assert FindByKey(s.entries, 1, 0) == Some(0);
    SameRequestIsSameHash(POSING, GENUINE);
  }
}
