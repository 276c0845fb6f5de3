/** Which steps write a run's row, and that every other step leaves the row and its attempts alone. */
module Frames {
  import opened Domain
  import opened Tables
  import opened Transitions
  import opened Protocol
  import opened ProtocolInvariant
  import opened Liveness

  /** The steps that lock and write the row of run `k`. */
  predicate Writes(step: Step, k: nat) {
    match step
    case Claim(r, _, _, _) => r == k
    case Complete(r, _, _, _, _) => r == k
    case Recover(r, _) => r == k
    case Schedule(r, _) => r == k
    case _ => false
  }

  lemma WriteRowsFrame(s: State, r: nat, e: Entry, k: nat)
    requires r < |s.entries| && k < |s.entries| && k != r
    ensures k < |WriteRows(s, r, e).entries| && SameRun(s.entries[k], WriteRows(s, r, e).entries[k])
  {
  }

  lemma ClaimTxFrame(c: Config, s: State, r: nat, worker: Ident, seen: Observed, k: nat)
    requires r < |s.entries| && k < |s.entries| && k != r
    ensures var s' := ClaimTx(c, s, r, worker, seen).0; k < |s'.entries| && SameRun(s.entries[k], s'.entries[k])
  {
    WriteRowsFrame(s, r, ClaimRows(c, s.entries[r], worker, seen).0, k);
  }

  lemma ClaimFrame(c: Config, s: State, r: nat, d: nat, worker: Ident, seen: Observed, k: nat)
    requires k < |s.entries| && k != r
    ensures k < |ClaimDelivery(c, s, r, d, worker, seen).entries|
    ensures SameRun(s.entries[k], ClaimDelivery(c, s, r, d, worker, seen).entries[k])
  {
    if r < |s.entries| {
      ClaimTxFrame(c, s, r, worker, seen, k);
    }
  }

  lemma CompleteFrame(s: State, r: nat, slot: nat, worker: Ident, now: Time, report: Report, k: nat)
    requires k < |s.entries| && k != r
    ensures k < |CompleteStep(s, r, slot, worker, now, report).entries|
    ensures SameRun(s.entries[k], CompleteStep(s, r, slot, worker, now, report).entries[k])
  {
    if r < |s.entries| && CompletedRows(s.entries[r], slot, worker, now, report).Some? {
      WriteRowsFrame(s, r, CompletedRows(s.entries[r], slot, worker, now, report).value, k);
    }
  }

  lemma RecoverFrame(s: State, r: nat, now: Time, k: nat)
    requires k < |s.entries| && k != r
    ensures k < |RecoverStep(s, r, now).entries| && SameRun(s.entries[k], RecoverStep(s, r, now).entries[k])
  {
    if r < |s.entries| && RecoveredRows(s.entries[r], now).Some? {
      WriteRowsFrame(s, r, RecoveredRows(s.entries[r], now).value, k);
    }
  }

  /** Only the steps that lock a run's row change its columns or its attempts. */
  lemma RunFrame(c: Config, s: State, step: Step, k: nat)
    requires Inv(c, s) && k < |s.entries| && !Writes(step, k)
    ensures k < |Apply(c, s, step).entries| && SameRun(s.entries[k], Apply(c, s, step).entries[k])
  {
    match step {
      case Claim(r, d, worker, seen) => ClaimFrame(c, s, r, d, worker, seen, k);
      case Complete(r, slot, worker, now, report) => CompleteFrame(s, r, slot, worker, now, report, k);
      case Recover(r, now) => RecoverFrame(s, r, now, k);
      case _ => OtherFrame(c, s, step, k);
    }
  }

  lemma OtherFrame(c: Config, s: State, step: Step, k: nat)
    requires c.limits.windowSeconds > 0 && k < |s.entries| && !Writes(step, k) && !step.Claim? && !step.Complete? && !step.Recover?
    ensures k < |Apply(c, s, step).entries| && SameRun(s.entries[k], Apply(c, s, step).entries[k])
  {
  }

  /** Only creations add a run. */
  lemma SameLength(c: Config, s: State, step: Step)
    requires c.limits.windowSeconds > 0 && !step.Submit? && !step.Replay? && !step.Evaluate?
    ensures |Apply(c, s, step).entries| == |s.entries|
  {
  }
}
