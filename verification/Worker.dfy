/** The worker's handling of one delivered message: claim, execute, complete, then acknowledge. */
module Worker {
  import opened Domain
  import opened Tables
  import opened Transitions
  import opened EntryInvariant
  import opened Protocol
  import opened ProtocolInvariant
  import opened Evolution
  import opened Guarantees
  import opened Liveness
  import opened Store
  import opened Execution
  import opened Providers
  import opened Retry

  lemma {:induction false} ClockAdvances(c: Config, s: State, steps: seq<Step>)
    requires c.limits.windowSeconds > 0
    ensures s.clock <= Execute(c, s, steps).clock
    decreases |steps|
  {
    if steps != [] {
      ClockForward(c, s, steps[0]);
      ClockAdvances(c, Apply(c, s, steps[0]), steps[1..]);
    }
  }

  /** A successful claim hands out the new last attempt, with nothing spent on it yet. */
  lemma ClaimedIsFresh(c: Config, s: State, r: nat, d: nat, worker: Ident, txStart: Time)
    requires Inv(c, s) && r < |s.entries| && txStart <= s.clock
    requires ClaimTx(c, s, r, worker, ExactRunning(s, r, txStart)).1.Claimed?
    ensures var seen := ExactRunning(s, r, txStart);
            var s' := Execute(c, s, [Step.Claim(r, d, worker, seen)]);
            var slot := ClaimTx(c, s, r, worker, seen).1.slot;
            && slot == |s.entries[r].attempts| && r < |s'.entries|
            && slot < |s'.entries[r].spending| && s'.entries[r].spending[slot] == NewExecutor()
  {
    RowsAreSound(c, s, r);
    assert EntryOk(c, s.clock, s.entries[r]);
    ClaimStep(c, s, r, d, worker, txStart);
  }

  /** Claim times grow with attempt numbers. */
  lemma {:induction false} ClaimTimesGrow(c: Config, clock: Time, e: Entry, i: nat)
    requires RowsInv(c, clock, e) && i < |e.attempts|
    ensures e.attempts[i].claimedAt <= e.attempts[|e.attempts| - 1].claimedAt
    decreases |e.attempts| - i
  {
    if i < |e.attempts| - 1 {
      AttemptShape(c, clock, e, i);
      assert SpacedAt(Policy(e).value, e.attempts[i], e.attempts[i + 1], i + 1);
      DelayLaw(Policy(e).value, i + 1, i + 1);
      ClaimTimesGrow(c, clock, e, i + 1);
    }
  }

  lemma ClaimedInThePast(c: Config, s: State, r: nat, slot: nat)
    requires Inv(c, s) && r < |s.entries| && slot < |s.entries[r].attempts|
    ensures s.entries[r].attempts[slot].claimedAt <= s.clock
  {
    assert EntryOk(c, s.clock, s.entries[r]);
    ClaimTimesGrow(c, s.clock, s.entries[r], slot);
  }

  /** The claim's own step; nothing happened if there was no such run. */
  function ClaimSteps(s: State, r: nat, d: nat, worker: Ident, txStart: Time): seq<Step> {
    if r < |s.entries| then [Step.Claim(r, d, worker, ExactRunning(s, r, txStart))] else []
  }

  /** Where the handling of a message meets an exception, and whether its transaction was committed by then. */
  datatype Fault = NoFault | ClaimRaises(committed: bool) | CompleteRaises(committed: bool)

  function Conclusion(r: nat, d: nat, persisted: Option<bool>): Step {
    if persisted.None? then Step.Crash(r, d) else Step.Settle(r, d, !persisted.value)
  }

  /** The attempt ended, with an answer or an exception, as the provider and the quota made it end. */
  ghost predicate RanThrough(c: Config, s: State, r: nat, slot: nat, env: Surroundings, raised: Option<Raised>) {
    && r < |s.entries| && slot < |s.entries[r].spending|
    && exists cut ::
         && CameTo(c, s.entries[r].accepted, s.entries[r].spending[slot], env, raised, cut)
         && (cut ==> exists k :: env.fates(k).CutBeforePaying? || env.fates(k).CutAfterPaying?)
  }

  /** The run holds the report: the answer as its result, or the exception's code as its error. */
  ghost predicate Reported(s: State, r: nat, slot: nat, payload: Payload, raised: Option<Raised>) {
    && r < |s.entries| && slot < |s.entries[r].attempts|
    && s.entries[r].attempts[slot].finishedAt.Some? && !s.entries[r].run.status.Running?
    && match raised
       case None => s.entries[r].run.status.Succeeded? && s.entries[r].run.result == Some(payload)
       case Some(x) => !s.entries[r].run.status.Succeeded? && s.entries[r].run.error == Some(Classify(x))
  }

  class RabbitMqWorker {
    const db: Database
    const service: ExecutionService
    const id: Ident

    constructor (database: Database, executions: ExecutionService, worker: Ident)
      requires executions.db == database
      ensures db == database && service == executions && id == worker && service.db == db
    {
      db, service, id := database, executions, worker;
    }

    /** Acknowledges the message, or gives it back to the queue. */
    method Settle(r: nat, d: nat, requeue: bool)
      requires db.Valid()
      modifies db
      ensures db.Valid() && db.history == old(db.history) + [Step.Settle(r, d, requeue)]
      ensures |db.state.entries| == |old(db.state).entries|
      ensures forall k :: 0 <= k < |db.state.entries| ==>
                db.state.entries[k].run == old(db.state).entries[k].run && db.state.entries[k].attempts == old(db.state).entries[k].attempts
      ensures DeliveredAs(old(db.state), r, d, Decided) ==>
                DeliveredAs(db.state, r, d, Closed) &&
                db.state.entries[r].queued == old(db.state).entries[r].queued + if requeue then 1 else 0
    {
      var next := db.state;
      if DeliveredAs(next, r, d, Decided) {
        next := Put(next, r, SetPhase(next.entries[r], d, Closed, requeue));
      }
      One(db.config, db.state, Step.Settle(r, d, requeue));
      db.Commit(next, [Step.Settle(r, d, requeue)]);
    }

    /** Gives the message back after an exception, whether or not its claim was decided. */
    method GiveBack(r: nat, d: nat)
      requires db.Valid()
      modifies db
      ensures db.Valid() && db.history == old(db.history) + [Step.Crash(r, d)]
      ensures DeliveredAs(old(db.state), r, d, Undecided) || DeliveredAs(old(db.state), r, d, Decided) ==>
                DeliveredAs(db.state, r, d, Closed) && db.state.entries[r].queued == old(db.state).entries[r].queued + 1
    {
      var next := db.state;
      if DeliveredAs(next, r, d, Undecided) || DeliveredAs(next, r, d, Decided) {
        next := Put(next, r, SetPhase(next.entries[r], d, Closed, true));
      }
      One(db.config, db.state, Step.Crash(r, d));
      db.Commit(next, [Step.Crash(r, d)]);
    }

    /**
     `_execute_claim`: runs the attempt within its time limit and reports its answer, or the code of
     what it raised. The report's instant is sampled before the completion waits for its row lock. A
     completion that raises has either committed or not. `ran` is what happened until the report.
     */
    method ExecuteClaim(r: nat, slot: nat, env: Surroundings, waiting: seq<Step>, payload: Payload, provider: string, fault: Fault)
      returns (persisted: Option<bool>, raised: Option<Raised>, ghost ran: seq<Step>, ghost steps: seq<Step>)
      requires db.Valid() && service.db == db
      requires r < |db.state.entries| && slot < |db.state.entries[r].spending|
      requires db.state.entries[r].spending[slot] == NewExecutor() && Leaves(env, r, slot)
      modifies db
      ensures db.Valid() && db.history == old(db.history) + steps
      ensures persisted.None? <==> fault.CompleteRaises?
      ensures var s := Execute(db.config, old(db.state), ran);
              && RanThrough(db.config, s, r, slot, env, raised)
              && steps == ran + waiting + if fault == CompleteRaises(false) then [] else [Reporting(s.clock, r, slot, payload, provider, raised)]
      ensures persisted == Some(true) ==> Reported(db.state, r, slot, payload, raised)
    {
      raised, ran := RunAttempt(r, slot, env);
      var now := db.state.clock;
      AwaitRow(r, slot, waiting);
      steps := ran + waiting;
      if fault == CompleteRaises(false) {
        return None, raised, ran, steps;
      }
      ghost var step;
      var done;
      done, step := SendReport(r, slot, now, payload, provider, raised);
      steps := steps + [step];
      persisted := if fault.CompleteRaises? then None else Some(done);
    }

    /** The execution itself, under the attempt's time limit. */
    method RunAttempt(r: nat, slot: nat, env: Surroundings) returns (raised: Option<Raised>, ghost ran: seq<Step>)
      requires db.Valid() && r < |db.state.entries| && slot < |db.state.entries[r].spending|
      requires db.state.entries[r].spending[slot] == NewExecutor() && Leaves(env, r, slot)
      modifies db
      ensures db.Valid() && db.history == old(db.history) + ran && db.state == Execute(db.config, old(db.state), ran)
      ensures RanThrough(db.config, db.state, r, slot, env, raised)
    {
      var cut;
      raised, cut, ran := ExecuteAttempt(db, r, slot, id, env);
      ExecuteConcat(db.config, INITIAL, old(db.history), ran);
    }

    /** The answer is a success, everything raised a failure under its code. */
    method SendReport(r: nat, slot: nat, now: Time, payload: Payload, provider: string, raised: Option<Raised>)
      returns (done: bool, ghost step: Step)
      requires db.Valid() && service.db == db && now <= db.state.clock
      requires r < |db.state.entries| && slot < |db.state.entries[r].attempts| && db.state.entries[r].attempts[slot].claimedAt <= now
      modifies db
      ensures db.Valid() && db.history == old(db.history) + [step] && step == Reporting(now, r, slot, payload, provider, raised)
      ensures done ==> Reported(db.state, r, slot, payload, raised)
    {
      var report := if raised.None? then SuccessReport(payload, provider) else FailureReport(Classify(raised.value));
      done := service.Complete(r, slot, id, now, report);
      step := Step.Complete(r, slot, id, now, report);
    }

    /** The worker's own report: the answer, or the code of the exception. */
    function Reporting(now: Time, r: nat, slot: nat, payload: Payload, provider: string, raised: Option<Raised>): Step {
      match raised
      case None => Complete(r, slot, id, now, SuccessReport(payload, provider))
      case Some(x) => Complete(r, slot, id, now, FailureReport(Classify(x)))
    }

    /** Time passes; an attempt's claim stays where it was, in the past of the sampled instant. */
    method AwaitRow(r: nat, slot: nat, waiting: seq<Step>)
      requires db.Valid() && r < |db.state.entries| && slot < |db.state.entries[r].spending|
      modifies db
      ensures db.Valid() && db.history == old(db.history) + waiting
      ensures old(db.state).clock <= db.state.clock
      ensures r < |db.state.entries| && slot < |db.state.entries[r].attempts|
      ensures db.state.entries[r].attempts[slot].claimedAt <= old(db.state).clock
    {
      Reached(db.config, db.history);
      assert EntryOk(db.config, db.state.clock, db.state.entries[r]);
      ClaimedInThePast(db.config, db.state, r, slot);
      ClockAdvances(db.config, db.state, waiting);
      ExecuteEvolves(db.config, db.state, waiting, r);
      db.Wait(waiting);
      assert AttemptEvolves(old(db.state).entries[r].attempts[slot], db.state.entries[r].attempts[slot]);
    }

    /**
     `_handle_run_delivery`. A message is acknowledged only once its claim has been decided
     durably and, when the claim was won, the attempt it opened has been closed durably;
     otherwise, and after every exception, it goes back to the queue. Whatever happens, no run is
     left stranded.
     */
    method HandleRunDelivery(
      r: nat, d: nat, txStart: Time, env: Surroundings, waiting: seq<Step>, payload: Payload, provider: string, fault: Fault)
      returns (acked: bool, decision: Decision, raised: Option<Raised>, ghost steps: seq<Step>)
      requires db.Valid() && service.db == db && txStart <= db.state.clock
      requires r < |db.state.entries| ==> Leaves(env, r, |db.state.entries[r].attempts|)
      modifies db
      ensures db.Valid() && db.history == old(db.history) + steps && steps != []
      ensures acked ==> steps[|steps| - 1] == Step.Settle(r, d, false)
      ensures !acked ==> steps[|steps| - 1] == Step.Settle(r, d, true) || steps[|steps| - 1] == Step.Crash(r, d)
      ensures fault.ClaimRaises? ==> !acked
      ensures fault.CompleteRaises? && decision.Claimed? ==> !acked
      ensures fault.NoFault? && !decision.Claimed? ==> acked
      ensures acked && decision.Claimed? ==> Reported(db.state, r, decision.slot, payload, raised)
      ensures forall k :: 0 <= k < |db.state.entries| ==> HasWayForward(db.state.entries[k])
    {
      var persisted;
      persisted, decision, raised, steps := Process(r, d, txStart, env, waiting, payload, provider, fault);
      acked := Conclude(r, d, persisted);
      steps := steps + [Conclusion(r, d, persisted)];
      NobodyIsStranded();
    }

    /** The claim and, when it is won, its execution; no answer means an exception. */
    method Process(
      r: nat, d: nat, txStart: Time, env: Surroundings, waiting: seq<Step>, payload: Payload, provider: string, fault: Fault)
      returns (persisted: Option<bool>, decision: Decision, raised: Option<Raised>, ghost steps: seq<Step>)
      requires db.Valid() && service.db == db && txStart <= db.state.clock
      requires r < |db.state.entries| ==> Leaves(env, r, |db.state.entries[r].attempts|)
      modifies db
      ensures db.Valid() && db.history == old(db.history) + steps
      ensures persisted.None? <==> fault.ClaimRaises? || (fault.CompleteRaises? && decision.Claimed?)
      ensures !fault.ClaimRaises? && !decision.Claimed? ==> persisted == Some(true)
      ensures persisted == Some(true) && decision.Claimed? ==> Reported(db.state, r, decision.slot, payload, raised)
    {
      ghost var before := db.state;
      decision, raised, steps := Missing, None, [];
      if fault != ClaimRaises(false) {
        decision := ClaimMessage(r, d, txStart);
        steps := ClaimSteps(before, r, d, id, txStart);
      }
      persisted := Some(true);
      if fault.ClaimRaises? {
        persisted := None;
      } else if decision.Claimed? {
        ghost var ran, more;
        persisted, raised, ran, more := ExecuteClaim(r, decision.slot, env, waiting, payload, provider, fault);
        steps := steps + more;
      }
    }

    /** Acknowledges what was persisted, requeues what was not, and gives back after an exception. */
    method Conclude(r: nat, d: nat, persisted: Option<bool>) returns (acked: bool)
      requires db.Valid()
      modifies db
      ensures db.Valid() && db.history == old(db.history) + [Conclusion(r, d, persisted)]
      ensures acked == (persisted == Some(true))
      ensures acked ==>
                && |db.state.entries| == |old(db.state).entries|
                && forall k :: 0 <= k < |db.state.entries| ==>
                     db.state.entries[k].run == old(db.state).entries[k].run && db.state.entries[k].attempts == old(db.state).entries[k].attempts
    {
      if persisted.None? {
        GiveBack(r, d);
        return false;
      }
      Settle(r, d, !persisted.value);
      return persisted.value;
    }

    lemma NobodyIsStranded()
      requires db.Valid()
      ensures forall k :: 0 <= k < |db.state.entries| ==> HasWayForward(db.state.entries[k])
    {
      forall k | 0 <= k < |db.state.entries| ensures HasWayForward(db.state.entries[k]) {
        NothingIsStranded(db.config, db.history, k);
      }
    }

    /** The claim of a message; a won claim comes with a fresh attempt. */
    method ClaimMessage(r: nat, d: nat, txStart: Time) returns (decision: Decision)
      requires db.Valid() && service.db == db && txStart <= db.state.clock
      modifies db
      ensures db.Valid() && db.history == old(db.history) + ClaimSteps(old(db.state), r, d, id, txStart)
      ensures decision.Claimed? ==>
                && r < |old(db.state).entries| && decision.slot == |old(db.state).entries[r].attempts|
                && r < |db.state.entries| && decision.slot < |db.state.entries[r].spending|
                && db.state.entries[r].spending[decision.slot] == NewExecutor()
    {
      Reached(db.config, db.history);
      ghost var before := db.state;
      decision := service.Claim(r, d, id, txStart);
      if decision.Claimed? {
        ClaimedIsFresh(db.config, before, r, d, id, txStart);
      }
    }
  }
}
