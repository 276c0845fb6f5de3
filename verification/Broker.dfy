/** The broker's messages: none is lost, none appears from nowhere, and only an acknowledgement removes one. */
module Broker {
  import opened Domain
  import opened Tables
  import opened Transitions
  import opened Protocol
  import opened Guarantees

  /** The deliveries that a worker has in hand: decided or not, but not settled. */
  function InHand(deliveries: seq<Phase>): nat {
    if deliveries == [] then 0
    else InHand(deliveries[..|deliveries| - 1]) + if deliveries[|deliveries| - 1] == Closed then 0 else 1
  }

  /** A run's messages, queued or in hand. */
  function Messages(s: State, r: nat): nat {
    if r < |s.entries| then s.entries[r].queued + InHand(s.entries[r].deliveries) else 0
  }

  /** The step publishes a row that queues the run, and the broker gets it, whatever the publisher hears. */
  predicate Sends(s: State, step: Step, r: nat) {
    && step.Publish? && step.r == r && r < |s.entries| && step.row < |s.entries[r].outbox|
    && s.entries[r].outbox[step.row].publishedAt == None && s.entries[r].outbox[step.row].delivery == QueueRun
    && step.publication != Refused(false)
  }

  /** The step acknowledges a delivery whose claim has been decided. */
  predicate Acknowledges(s: State, step: Step, r: nat) {
    && step.Settle? && step.r == r && !step.requeue && r < |s.entries|
    && step.d < |s.entries[r].deliveries| && s.entries[r].deliveries[step.d] == Decided
  }

  function Sendings(c: Config, s: State, steps: seq<Step>, r: nat): nat
    requires c.limits.windowSeconds > 0
    decreases |steps|
  {
    if steps == [] then 0 else (if Sends(s, steps[0], r) then 1 else 0) + Sendings(c, Apply(c, s, steps[0]), steps[1..], r)
  }

  function Acknowledgements(c: Config, s: State, steps: seq<Step>, r: nat): nat
    requires c.limits.windowSeconds > 0
    decreases |steps|
  {
    if steps == [] then 0 else (if Acknowledges(s, steps[0], r) then 1 else 0) + Acknowledgements(c, Apply(c, s, steps[0]), steps[1..], r)
  }

  lemma {:induction false} InHandAfter(deliveries: seq<Phase>, d: nat, phase: Phase)
    requires d < |deliveries|
    ensures InHand(deliveries[d := phase])
         == InHand(deliveries) - (if deliveries[d] == Closed then 0 else 1) + if phase == Closed then 0 else 1
  {
    var n := |deliveries| - 1;
    if d < n {
      InHandAfter(deliveries[..n], d, phase);
      assert deliveries[d := phase][..n] == deliveries[..n][d := phase];
    } else {
      assert deliveries[d := phase][..n] == deliveries[..n];
    }
  }

  lemma WritesSendNothing(s: State, k: nat, e: Entry, r: nat)
    requires k < |s.entries| && e.queued == s.entries[k].queued && e.deliveries == s.entries[k].deliveries
    ensures Messages(WriteRows(s, k, e), r) == Messages(s, r)
  {
  }

  lemma ClaimSendsNothing(c: Config, s: State, k: nat, d: nat, worker: Ident, seen: Observed, r: nat)
    ensures Messages(ClaimDelivery(c, s, k, d, worker, seen), r) == Messages(s, r)
  {
    if k < |s.entries| {
      var e := ClaimRows(c, s.entries[k], worker, seen).0;
      assert e.queued == s.entries[k].queued && e.deliveries == s.entries[k].deliveries;
      WritesSendNothing(s, k, e, r);
      var s1 := ClaimTx(c, s, k, worker, seen).0;
      if DeliveredAs(s1, k, d, Undecided) {
        InHandAfter(s1.entries[k].deliveries, d, Decided);
      }
    }
  }

  lemma EndingSendsNothing(s: State, k: nat, slot: nat, worker: Ident, now: Time, report: Report, r: nat)
    ensures Messages(CompleteStep(s, k, slot, worker, now, report), r) == Messages(s, r)
    ensures Messages(RecoverStep(s, k, now), r) == Messages(s, r)
  {
    if k < |s.entries| && CompletedRows(s.entries[k], slot, worker, now, report).Some? {
      WritesSendNothing(s, k, CompletedRows(s.entries[k], slot, worker, now, report).value, r);
    }
    if k < |s.entries| && RecoveredRows(s.entries[k], now).Some? {
      WritesSendNothing(s, k, RecoveredRows(s.entries[k], now).value, r);
    }
  }

  lemma SettlingMoves(s: State, k: nat, d: nat, requeue: bool, r: nat)
    ensures Messages(SettleTx(s, k, d, requeue), r) == Messages(s, r) - if Acknowledges(s, Settle(k, d, requeue), r) then 1 else 0
    ensures Messages(CrashTx(s, k, d), r) == Messages(s, r)
  {
    if k < |s.entries| && d < |s.entries[k].deliveries| {
      InHandAfter(s.entries[k].deliveries, d, Closed);
    }
  }

  lemma DeliveringMoves(s: State, k: nat, r: nat)
    ensures Messages(DeliverTx(s, k), r) == Messages(s, r)
  {
    if k < |s.entries| {
      var deliveries := s.entries[k].deliveries;
      assert (deliveries + [Undecided])[..|deliveries|] == deliveries;
    }
  }

  lemma PublishingSends(s: State, k: nat, row: nat, p: Publication, r: nat)
    ensures Messages(PublishTx(s, k, row, p), r) == Messages(s, r) + if Sends(s, Publish(k, row, p), r) then 1 else 0
  {
  }

  lemma OthersSendNothing(c: Config, s: State, step: Step, r: nat)
    requires c.limits.windowSeconds > 0
    requires step.Tick? || step.Submit? || step.Replay? || step.Evaluate? || step.Schedule? || step.Spend?
    ensures Messages(Apply(c, s, step), r) == Messages(s, r)
  {
  }

  lemma StepConserves(c: Config, s: State, step: Step, r: nat)
    requires c.limits.windowSeconds > 0
    ensures Messages(Apply(c, s, step), r)
         == Messages(s, r) + (if Sends(s, step, r) then 1 else 0) - if Acknowledges(s, step, r) then 1 else 0
  {
    match step {
      case Publish(k, row, p) => PublishingSends(s, k, row, p, r);
      case Deliver(k) => DeliveringMoves(s, k, r);
      case Claim(k, d, worker, seen) => ClaimSendsNothing(c, s, k, d, worker, seen, r);
      case Settle(k, d, requeue) => SettlingMoves(s, k, d, requeue, r);
      case Crash(k, d) => SettlingMoves(s, k, d, true, r);
      case Complete(k, slot, worker, now, report) => EndingSendsNothing(s, k, slot, worker, now, report, r);
      case Recover(k, now) => EndingSendsNothing(s, k, 0, 0, now, FailureReport(LeaseExpired), r);
      case _ => OthersSendNothing(c, s, step, r);
    }
  }

  lemma {:induction false} ConservedFrom(c: Config, s: State, steps: seq<Step>, r: nat)
    requires c.limits.windowSeconds > 0
    ensures Messages(Execute(c, s, steps), r) == Messages(s, r) + Sendings(c, s, steps, r) - Acknowledgements(c, s, steps, r)
    decreases |steps|
  {
    if steps != [] {
      StepConserves(c, s, steps[0], r);
      ConservedFrom(c, Apply(c, s, steps[0]), steps[1..], r);
    }
  }

  /**
   In every reachable state a run's messages are those that were sent for it and not acknowledged:
   crashes, requeues, duplicates and refused publications neither lose nor add one, and dead
   letters never reach the run queue.
   */
  lemma MessagesAreConserved(c: Config, steps: seq<Step>, r: nat)
    requires ValidConfig(c)
    ensures Messages(After(c, steps), r) == Sendings(c, INITIAL, steps, r) - Acknowledgements(c, INITIAL, steps, r)
  {
    ConservedFrom(c, INITIAL, steps, r);
  }
}
