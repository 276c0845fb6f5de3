/**
 Executing a claimed attempt: the provider-call counter, the fenced charge before each call,
 and the regression runner's two passes over its cases.
 */
module Providers {
  import opened Domain
  import opened Retry
  import opened Tables
  import opened Transitions
  import opened Protocol
  import opened ProtocolInvariant
  import opened Evolution
  import opened Guarantees
  import opened Idempotency
  import opened Liveness
  import opened Store
  import Quota

  // ---------------------------------------------------------------------------------------
  // What the rest of the system may do meanwhile
  // ---------------------------------------------------------------------------------------

  /** Nobody but an attempt's own executor acts for it: the claim that opened it was answered once. */
  predicate Foreign(step: Step, r: nat, slot: nat) {
    !(step.Spend? && step.r == r && step.slot == slot)
  }

  ghost predicate AllForeign(steps: seq<Step>, r: nat, slot: nat) {
    forall i :: 0 <= i < |steps| ==> Foreign(steps[i], r, slot)
  }

  ghost predicate SpendingKept(s: State, s': State, r: nat, slot: nat)
    requires r < |s.entries| && slot < |s.entries[r].spending|
  {
    r < |s'.entries| && slot < |s'.entries[r].spending| && s'.entries[r].spending[slot] == s.entries[r].spending[slot]
  }

  lemma WriteRowsKeepSpending(s: State, k: nat, e: Entry, r: nat, slot: nat)
    requires r < |s.entries| && slot < |s.entries[r].spending| && k < |s.entries|
    requires s.entries[k].spending <= e.spending
    ensures SpendingKept(s, WriteRows(s, k, e), r, slot)
  {
  }

  lemma ForeignClaim(c: Config, s: State, k: nat, d: nat, worker: Ident, seen: Observed, r: nat, slot: nat)
    requires r < |s.entries| && slot < |s.entries[r].spending|
    ensures SpendingKept(s, ClaimDelivery(c, s, k, d, worker, seen), r, slot)
  {
    if k < |s.entries| {
      ClaimAddsExecutor(c, s.entries[k], worker, seen);
      WriteRowsKeepSpending(s, k, ClaimRows(c, s.entries[k], worker, seen).0, r, slot);
    }
  }

  lemma ClaimAddsExecutor(c: Config, e: Entry, worker: Ident, seen: Observed)
    ensures e.spending <= ClaimRows(c, e, worker, seen).0.spending
  {
  }

  lemma ForeignComplete(s: State, k: nat, slot': nat, worker: Ident, now: Time, report: Report, r: nat, slot: nat)
    requires r < |s.entries| && slot < |s.entries[r].spending|
    ensures SpendingKept(s, CompleteStep(s, k, slot', worker, now, report), r, slot)
  {
    if k < |s.entries| && CompletedRows(s.entries[k], slot', worker, now, report).Some? {
      WriteRowsKeepSpending(s, k, CompletedRows(s.entries[k], slot', worker, now, report).value, r, slot);
    }
  }

  lemma ForeignRecover(s: State, k: nat, now: Time, r: nat, slot: nat)
    requires r < |s.entries| && slot < |s.entries[r].spending|
    ensures SpendingKept(s, RecoverStep(s, k, now), r, slot)
  {
    if k < |s.entries| && RecoveredRows(s.entries[k], now).Some? {
      WriteRowsKeepSpending(s, k, RecoveredRows(s.entries[k], now).value, r, slot);
    }
  }

  lemma ForeignSpend(c: Config, s: State, k: nat, slot': nat, action: Action, r: nat, slot: nat)
    requires c.limits.windowSeconds > 0 && r < |s.entries| && slot < |s.entries[r].spending| && (k != r || slot' != slot)
    ensures SpendingKept(s, SpendStep(c, s, k, slot', action), r, slot)
  {
  }

  lemma ForeignOther(c: Config, s: State, step: Step, r: nat, slot: nat)
    requires c.limits.windowSeconds > 0 && r < |s.entries| && slot < |s.entries[r].spending|
    requires !step.Claim? && !step.Complete? && !step.Recover? && !step.Spend?
    ensures SpendingKept(s, Apply(c, s, step), r, slot)
  {
  }

  lemma ForeignStep(c: Config, s: State, step: Step, r: nat, slot: nat)
    requires c.limits.windowSeconds > 0 && r < |s.entries| && slot < |s.entries[r].spending| && Foreign(step, r, slot)
    ensures SpendingKept(s, Apply(c, s, step), r, slot)
  {
    match step {
      case Claim(k, d, worker, seen) => ForeignClaim(c, s, k, d, worker, seen, r, slot);
      case Complete(k, slot', worker, now, report) => ForeignComplete(s, k, slot', worker, now, report, r, slot);
      case Recover(k, now) => ForeignRecover(s, k, now, r, slot);
      case Spend(k, slot', action) => ForeignSpend(c, s, k, slot', action, r, slot);
      case _ => ForeignOther(c, s, step, r, slot);
    }
  }

  /** Whatever the rest of the system does, an attempt's own executor stays where it is. */
  lemma {:induction false} ForeignKeeps(c: Config, s: State, steps: seq<Step>, r: nat, slot: nat)
    requires c.limits.windowSeconds > 0 && r < |s.entries| && slot < |s.entries[r].spending| && AllForeign(steps, r, slot)
    ensures SpendingKept(s, Execute(c, s, steps), r, slot)
    decreases |steps|
  {
    if steps != [] {
      ForeignStep(c, s, steps[0], r, slot);
      ForeignKeeps(c, Apply(c, s, steps[0]), steps[1..], r, slot);
    }
  }

  // ---------------------------------------------------------------------------------------
  // The charged executor
  // ---------------------------------------------------------------------------------------

  /** How one call ends. A cut off call was cancelled, before its charge or after it. */
  datatype CallOutcome = Returned | ProviderFailed(raised: Raised) | NotActive | NoBudget | CutOff

  /** What the provider, or the attempt's time limit, does to one call. */
  datatype Fate = Answers | Fails(raised: Raised) | CutBeforePaying | CutAfterPaying

  /** The exception that a call ends with; a cut off attempt ends with its own timeout. */
  function RaisedBy(outcome: CallOutcome): Option<Raised> {
    match outcome
    case Returned => None
    case ProviderFailed(raised) => Some(raised)
    case NotActive => Some(Unclassified)
    case NoBudget => Some(QuotaRefused)
    case CutOff => Some(TimedOut)
  }

  /** What ends a whole execution, and not only the case it belongs to. */
  predicate EndsAll(outcome: CallOutcome) {
    outcome.CutOff? || RaisedBy(outcome) == Some(QuotaRefused)
  }

  predicate Called(outcome: CallOutcome) {
    outcome.Returned? || outcome.ProviderFailed?
  }

  class ChargedExecutor {
    const db: Database
    const r: nat
    const slot: nat
    const worker: Ident
    const budget: nat
    var calls: nat

    /** The counter is what the attempt has paid for, and the budget is its kind's. */
    ghost predicate Valid()
      reads this, db
    {
      && db.Valid()
      && r < |db.state.entries| && slot < |db.state.entries[r].spending|
      && db.state.entries[r].spending[slot].charges == calls
      && budget == Budget(db.config, db.state.entries[r].accepted)
    }

    /** Where the attempt's executor is. */
    ghost function Self(): Spending
      requires Valid()
      reads this, db
    {
      db.state.entries[r].spending[slot]
    }

    constructor (database: Database, run: nat, attempt: nat, owner: Ident, limit: nat)
      requires database.Valid() && run < |database.state.entries| && attempt < |database.state.entries[run].spending|
      requires database.state.entries[run].spending[attempt] == NewExecutor()
      requires limit == Budget(database.config, database.state.entries[run].accepted)
      ensures Valid() && calls == 0 && db == database && r == run && slot == attempt && worker == owner && budget == limit
    {
      db, r, slot, worker, budget := database, run, attempt, owner, limit;
      calls := 0;
    }

    /** A move of the executor's own that needs no database. */
    method Move(action: Action)
      requires Valid() && !action.Pay?
      modifies db
      ensures Valid() && db.history == old(db.history) + [Step.Spend(r, slot, action)]
      ensures Self() == Moved(db.config, old(db.state).entries[r].accepted, old(Self()), action)
      ensures db.state.entries[r].accepted == old(db.state).entries[r].accepted
    {
      var e := db.state.entries[r];
      var next := Put(db.state, r, WithExecutor(e, slot, Moved(db.config, e.accepted, e.spending[slot], action)));
      One(db.config, db.state, Step.Spend(r, slot, action));
      db.Commit(next, [Step.Spend(r, slot, action)]);
    }

    /** The system moves on; the attempt's own executor and its accepted request do not. */
    method AwaitLocks(others: seq<Step>)
      requires Valid() && AllForeign(others, r, slot)
      modifies db
      ensures Valid() && db.history == old(db.history) + others && Self() == old(Self())
      ensures db.state == Protocol.Execute(db.config, old(db.state), others)
      ensures db.state.entries[r].accepted == old(db.state).entries[r].accepted
    {
      Reached(db.config, db.history);
      ForeignKeeps(db.config, db.state, others, r, slot);
      ExecuteEvolves(db.config, db.state, others, r);
      db.Wait(others);
    }

    ghost function Payment(): Step
      reads this, db
    {
      Step.Spend(r, slot, Pay(worker, db.state.clock, db.state.clock))
    }

    /** One fenced charge in its own transaction. */
    method Charge() returns (outcome: CallOutcome)
      requires Valid() && Self().activity.Calling? && calls < budget
      modifies db
      ensures db.Valid()
      ensures outcome.Returned? <==> ChargeTx(db.config, old(db.state), r, slot, worker, old(db.state).clock, old(db.state).clock).1
      ensures outcome.Returned? ==>
                && db.history == old(db.history) + [old(Payment())]
                && db.state.entries == old(db.state).entries[r := WithExecutor(old(db.state).entries[r], slot, old(Self()).(charges := calls + 1, activity := Paid))]
      ensures !outcome.Returned? ==> db.state == old(db.state) && db.history == old(db.history) && (outcome.NotActive? || outcome.NoBudget?)
      ensures outcome.NotActive? <==> !MayCharge(old(db.state).entries[r], slot, worker, old(db.state).clock)
    {
      var e, now := db.state.entries[r], db.state.clock;
      if slot >= |e.attempts| || e.attempts[slot].finishedAt.Some? {
        return NotActive;
      }
      if !e.run.status.Running? || e.run.leaseOwner != Some(worker) || e.run.leaseExpires.None? || e.run.leaseExpires.value <= now {
        return NotActive;
      }
      var charge := Quota.Charge(e.accepted.principal, e.accepted.client, now.Floor, r, slot);
      var quotas := new Quota.ProviderQuotas(db.state.ledger.rows);
      var accepted := quotas.ChargeProviderCall(db.config.limits, charge);
      if !accepted {
        return NoBudget;
      }
      var x := e.spending[slot];
      var next := Put(db.state, r, e.(spending := e.spending[slot := x.(charges := x.charges + 1, activity := Paid)]));
      next := next.(ledger := Quota.Ledger(quotas.rows, db.state.ledger.log + [charge]));
      PaymentStep(db.config, db.history, r, slot, worker);
      db.Commit(next, [Step.Spend(r, slot, Pay(worker, now, now))]);
      return Returned;
    }

    /**
     `ChargedExecutor.execute`. `others` is what the system does while the call waits for its
     locks. Every call is preceded by its own accepted charge; a call that is cut off after its
     charge leaves that one payment without its call.
     */
    method Execute(others: seq<Step>, fate: Fate) returns (outcome: CallOutcome, ghost steps: seq<Step>)
      requires Valid() && AllForeign(others, r, slot) && Self().activity.Calling?
      modifies this, db
      ensures Valid() && db.history == old(db.history) + steps
      ensures db.state.entries[r].accepted == old(db.state).entries[r].accepted && Self().position == old(Self()).position
      ensures outcome.Returned? ==> fate.Answers?
      ensures outcome.ProviderFailed? ==> fate == Fails(outcome.raised)
      ensures outcome.NotActive? ==>
                var before := Protocol.Execute(db.config, old(db.state), others);
                r < |before.entries| && !MayCharge(before.entries[r], slot, worker, before.clock)
      ensures Called(outcome) ==> Self() == old(Self()).(charges := old(calls) + 1, calls := old(Self()).calls + 1, activity := Idle)
      ensures !Called(outcome) && !outcome.CutOff? ==> Self() == old(Self())
      ensures outcome.CutOff? ==> Self() == old(Self()) || Self() == old(Self()).(charges := old(calls) + 1, activity := Paid)
      ensures outcome.CutOff? ==> fate.CutBeforePaying? || fate.CutAfterPaying?
      ensures old(calls) >= budget ==> outcome.NoBudget?
      ensures Called(outcome) ==>
                var before := Protocol.Execute(db.config, old(db.state), others);
                && ChargeTx(db.config, before, r, slot, worker, before.clock, before.clock).1
                && steps == others + [Step.Spend(r, slot, Pay(worker, before.clock, before.clock))] + [Step.Spend(r, slot, Invoke)]
    {
      steps := [];
      if calls >= budget {
        return NoBudget, steps;
      }
      AwaitLocks(others);
      steps := others;
      if fate.CutBeforePaying? {
        return CutOff, steps;
      }
      ghost var payment := Payment();
      outcome := Charge();
      if !outcome.Returned? {
        return;
      }
      calls := calls + 1;
      steps := steps + [payment];
      if fate.CutAfterPaying? {
        return CutOff, steps;
      }
      Move(Invoke);
      steps := steps + [Step.Spend(r, slot, Invoke)];
      outcome := if fate.Fails? then ProviderFailed(fate.raised) else Returned;
    }
  }

  /** A charge that reads the quota at the present instant is in order. */
  lemma PaymentStep(c: Config, history: seq<Step>, r: nat, slot: nat, worker: Ident)
    requires ValidConfig(c) && r < |After(c, history).entries|
    ensures var s := After(c, history);
            Execute(c, s, [Step.Spend(r, slot, Pay(worker, s.clock, s.clock))])
              == if slot < |s.entries[r].spending| then ChargeTx(c, s, r, slot, worker, s.clock, s.clock).0 else s
  {
    Reached(c, history);
    var s := After(c, history);
    assert ReadInOrder(s, r, slot, s.clock);
    One(c, s, Step.Spend(r, slot, Pay(worker, s.clock, s.clock)));
  }

  // ---------------------------------------------------------------------------------------
  // Regression runs
  // ---------------------------------------------------------------------------------------

  /** What the environment contributes to the k-th call of an execution. */
  datatype Surroundings = Surroundings(others: nat -> seq<Step>, fates: nat -> Fate)

  ghost predicate Leaves(env: Surroundings, r: nat, slot: nat) {
    forall k :: AllForeign(env.others(k), r, slot)
  }

  /** One case's entry in a target's result: its verdict, or the error that stood in for it. */
  datatype CaseResult = Judged | Errored

  /** How a sequence of calls ended: with results, refused by a quota, or cut off. */
  datatype Ending = Finished(results: seq<CaseResult>) | OutOfQuota | Interrupted

  /**
   Only an answered case is judged; a case without a call is an error; and when every case was
   called, the answered ones are exactly the judged ones.
   */
  ghost predicate Verdicts(results: seq<CaseResult>, env: Surroundings, first: nat, calls: int) {
    && 0 <= calls <= |results|
    && (forall i :: 0 <= i < |results| && results[i].Judged? ==> env.fates(first + i).Answers?)
    && (calls == |results| ==> forall i :: 0 <= i < |results| ==> (results[i].Judged? <==> env.fates(first + i).Answers?))
  }

  /** The position before case `i` of a target. */
  function Before(target: nat, i: nat, cases: nat): Position {
    if i < cases || cases == 0 then Position(target, i) else Position(target + 1, 0)
  }

  ghost predicate Runs(executor: ChargedExecutor, target: nat, cases: nat)
    requires executor.Valid()
    reads executor, executor.db
  {
    var a := executor.db.state.entries[executor.r].accepted;
    target < Targets(executor.db.config, a) && cases == Cases(executor.db.config, a)
  }

  /** The loop's body: the executor turns to a case, calls, and is done with it or with everything. */
  method RunCase(executor: ChargedExecutor, others: seq<Step>, fate: Fate) returns (outcome: CallOutcome, ghost steps: seq<Step>)
    requires executor.Valid() && AllForeign(others, executor.r, executor.slot) && executor.Self().activity.Idle?
    requires HasCase(executor.db.config, executor.db.state.entries[executor.r].accepted, executor.Self().position)
    modifies executor, executor.db
    ensures executor.Valid() && executor.db.history == old(executor.db.history) + steps
    ensures var a := old(executor.db.state).entries[executor.r].accepted;
            executor.db.state.entries[executor.r].accepted == a && executor.Self().position == NextCase(executor.db.config, a, old(executor.Self()).position)
    ensures if EndsAll(outcome) then executor.Self().activity.Halted? else executor.Self().activity.Idle?
    ensures executor.Self().calls == old(executor.Self()).calls + if Called(outcome) then 1 else 0
    ensures outcome.Returned? ==> fate.Answers?
    ensures outcome.ProviderFailed? ==> fate == Fails(outcome.raised)
    ensures !outcome.CutOff? ==> executor.Self().charges - executor.Self().calls == old(executor.Self()).charges - old(executor.Self()).calls
    ensures outcome.CutOff? ==> fate.CutBeforePaying? || fate.CutAfterPaying?
  {
    executor.Move(Start);
    ghost var one;
    outcome, one := executor.Execute(others, fate);
    steps := [Step.Spend(executor.r, executor.slot, Start)] + one;
    if EndsAll(outcome) {
      executor.Move(Halt);
      steps := steps + [Step.Spend(executor.r, executor.slot, Halt)];
    } else if outcome.NotActive? {
      executor.Move(Skip);
      steps := steps + [Step.Spend(executor.r, executor.slot, Skip)];
    }
  }

  /**
   `_run_target`: one call per case, in order. An exhausted quota ends the whole run; every other
   error is recorded for its case and the next case goes on.
   */
  method RunTarget(executor: ChargedExecutor, target: nat, cases: nat, env: Surroundings, first: nat)
    returns (ending: Ending, ghost steps: seq<Step>)
    requires executor.Valid() && Leaves(env, executor.r, executor.slot) && Runs(executor, target, cases)
    requires executor.Self().activity.Idle? && (cases > 0 ==> executor.Self().position == Position(target, 0))
    requires executor.Self().charges == executor.Self().calls
    modifies executor, executor.db
    ensures executor.Valid() && executor.db.history == old(executor.db.history) + steps
    ensures executor.db.state.entries[executor.r].accepted == old(executor.db.state).entries[executor.r].accepted
    ensures ending.Finished? ==>
              && |ending.results| == cases && executor.Self().activity.Idle?
              && (cases > 0 ==> executor.Self().position == Position(target + 1, 0))
              && Verdicts(ending.results, env, first, executor.Self().calls - old(executor.Self()).calls)
    ensures !ending.Finished? ==> executor.Self().activity.Halted?
    ensures !ending.Interrupted? ==> executor.Self().charges == executor.Self().calls
    ensures ending.Interrupted? ==> exists k :: env.fates(k).CutBeforePaying? || env.fates(k).CutAfterPaying?
  {
    var found := [];
    steps := [];
    for i := 0 to cases
      invariant executor.Valid() && executor.db.history == old(executor.db.history) + steps
      invariant executor.db.state.entries[executor.r].accepted == old(executor.db.state).entries[executor.r].accepted
      invariant |found| == i && executor.Self().activity.Idle? && executor.Self().charges == executor.Self().calls
      invariant cases > 0 ==> executor.Self().position == Before(target, i, cases)
      invariant Verdicts(found, env, first, executor.Self().calls - old(executor.Self()).calls)
    {
      var outcome;
      ghost var one;
      outcome, one := RunCase(executor, env.others(first + i), env.fates(first + i));
      steps := steps + one;
      if RaisedBy(outcome) == Some(QuotaRefused) {
        return OutOfQuota, steps;
      }
      if outcome.CutOff? {
        return Interrupted, steps;
      }
      found := found + [if outcome.Returned? then Judged else Errored];
    }
    return Finished(found), steps;
  }

  // ---------------------------------------------------------------------------------------
  // The resource executor
  // ---------------------------------------------------------------------------------------

  /**
   What an execution came to. One call that was made and answered is a success, and one that was
   made and failed raises what the provider raised; evaluations always succeed; a regression
   succeeds exactly if its dataset fits the server and nothing stopped its executor.
   */
  ghost predicate CameTo(c: Config, a: Accepted, x: Spending, env: Surroundings, raised: Option<Raised>, cut: bool) {
    && (cut ==> raised == Some(TimedOut)) && (!cut ==> x.calls == x.charges)
    && match a.kind
       case ExecutionWork =>
         && x.calls <= 1
         && (raised.None? <==> x.calls == 1 && env.fates(0).Answers?)
         && (x.calls == 1 && env.fates(0).Fails? ==> raised == Some(env.fates(0).raised))
         && (x.calls == 0 && !cut ==> raised == Some(Unclassified) || raised == Some(QuotaRefused))
       case EvaluationWork => raised.None? && x.calls == 0
       case RegressionWork =>
         && (raised.None? <==> FitsServer(c, a) && x.activity.Idle?)
         && (raised.Some? && !cut ==> raised.value == if a.input.Dataset? then QuotaRefused else Unclassified)
  }

  /**
   `ResourceExecutor.execute` for an attempt that has just been claimed. Evaluation jobs find
   their source and call nobody, regression jobs run both targets if the dataset fits the server,
   and everything else makes one call. Unless it was cut off, the attempt has called as often as
   it has paid; cut off, it may have paid once more.
   */
  method ExecuteAttempt(db: Database, r: nat, slot: nat, worker: Ident, env: Surroundings)
    returns (raised: Option<Raised>, cut: bool, ghost steps: seq<Step>)
    requires db.Valid() && r < |db.state.entries| && slot < |db.state.entries[r].spending|
    requires db.state.entries[r].spending[slot] == NewExecutor() && Leaves(env, r, slot)
    modifies db
    ensures db.Valid() && db.history == old(db.history) + steps
    ensures r < |db.state.entries| && slot < |db.state.entries[r].spending|
    ensures db.state.entries[r].accepted == old(db.state).entries[r].accepted
    ensures var x, a := db.state.entries[r].spending[slot], db.state.entries[r].accepted;
            && x.calls <= x.charges <= x.calls + 1
            && x.charges <= Loops(db.config, a) <= Budget(db.config, a)
            && CameTo(db.config, a, x, env, raised, cut)
    ensures cut ==> exists k :: env.fates(k).CutBeforePaying? || env.fates(k).CutAfterPaying?
  {
    var a := db.state.entries[r].accepted;
    cut, steps := false, [];
    if a.kind.EvaluationWork? {
      var available := SourceIsAvailable(db, r);
      raised := if available then None else Some(Unclassified);
    } else if a.kind.RegressionWork? {
      var budget := db.config.regressionBudget;
      if !a.input.Dataset? {
        raised := Some(Unclassified);
      } else if a.input.cases > db.config.regressionMaxCases || 2 * a.input.cases > budget {
        raised := Some(QuotaRefused);
      } else {
        raised, cut, steps := RunRegression(db, r, slot, worker, a.input.cases, env);
      }
    } else {
      var executor := new ChargedExecutor(db, r, slot, worker, 1);
      var outcome;
      outcome, steps := RunCase(executor, env.others(0), env.fates(0));
      raised, cut := RaisedBy(outcome), outcome.CutOff?;
    }
    PaidWithinLoops(db.config, db.history, r, slot);
  }

  /** `EvaluationRegressionRunner.run`: the baseline, then the candidate. */
  method RunRegression(db: Database, r: nat, slot: nat, worker: Ident, cases: nat, env: Surroundings)
    returns (raised: Option<Raised>, cut: bool, ghost steps: seq<Step>)
    requires db.Valid() && r < |db.state.entries| && slot < |db.state.entries[r].spending|
    requires db.state.entries[r].spending[slot] == NewExecutor() && Leaves(env, r, slot)
    requires db.state.entries[r].accepted.kind.RegressionWork? && FitsServer(db.config, db.state.entries[r].accepted)
    requires cases == db.state.entries[r].accepted.input.cases
    modifies db
    ensures db.Valid() && db.history == old(db.history) + steps
    ensures r < |db.state.entries| && slot < |db.state.entries[r].spending|
    ensures db.state.entries[r].accepted == old(db.state).entries[r].accepted
    ensures var x := db.state.entries[r].spending[slot];
            && (!cut ==> x.charges == x.calls)
            && (raised.None? <==> x.activity.Idle?)
            && (raised.None? && cases > 0 ==> x.position == Position(2, 0))
    ensures raised.Some? ==> raised.value == if cut then TimedOut else QuotaRefused
    ensures cut ==> raised.Some? && exists k :: env.fates(k).CutBeforePaying? || env.fates(k).CutAfterPaying?
  {
    var executor := new ChargedExecutor(db, r, slot, worker, db.config.regressionBudget);
    var baseline;
    baseline, steps := RunTarget(executor, 0, cases, env, 0);
    if !baseline.Finished? {
      return Stopped(baseline), baseline.Interrupted?, steps;
    }
    var candidate;
    ghost var more;
    candidate, more := RunTarget(executor, 1, cases, env, cases);
    return Stopped(candidate), candidate.Interrupted?, steps + more;
  }

  /** What stops a regression: its quota, or the attempt's time limit. */
  function Stopped(ending: Ending): Option<Raised> {
    match ending
    case Finished(_) => None
    case OutOfQuota => Some(QuotaRefused)
    case Interrupted => Some(TimedOut)
  }

  lemma PaidWithinLoops(c: Config, history: seq<Step>, r: nat, slot: nat)
    requires ValidConfig(c) && r < |After(c, history).entries| && slot < |After(c, history).entries[r].spending|
    ensures var e := After(c, history).entries[r];
            var x := e.spending[slot];
            && x.calls <= x.charges <= x.calls + 1
            && x.charges <= Loops(c, e.accepted) <= Budget(c, e.accepted)
  {
    Reached(c, history);
    var s := After(c, history);
    assert EntryOk(c, s.clock, s.entries[r]);
    ExecutorBounds(c, s.entries[r].accepted, s.entries[r].spending[slot]);
  }

  /** The check behind "Evaluation source is unavailable"; for a job made by `evaluate` it always passes. */
  method SourceIsAvailable(db: Database, r: nat) returns (available: bool)
    requires db.Valid() && r < |db.state.entries| && db.state.entries[r].accepted.kind.EvaluationWork?
    ensures available
  {
    EvaluationLifecycle(db.config, db.history, [], r);
    JobNamesItsSource(db.config, db.history, r);
    var job := db.state.entries[r];
    if !job.accepted.input.RulesFor? {
      return false;
    }
    var source := job.accepted.input.run;
    available := source < |db.state.entries| && db.state.entries[source].accepted.client == job.accepted.client &&
                 db.state.entries[source].run.result.Some?;
  }
}
