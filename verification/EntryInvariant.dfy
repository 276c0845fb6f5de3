/**
 What is true of the rows of every run, whatever steps came before, and the proof that each
 transaction on one run keeps it.
 */
module EntryInvariant {
  import opened Domain
  import opened Retry
  import opened Tables
  import opened Transitions

  // ---------------------------------------------------------------------------------------
  // Attempts explain the status
  // ---------------------------------------------------------------------------------------

  /** The i-th attempt, closed by a failure that allowed another one. */
  ghost predicate SettledAt(a: Attempt, i: nat) {
    && a.number == i + 1
    && a.finishedAt.Some? && a.claimedAt <= a.finishedAt.value
    && a.outcome == Some(Failure) && a.error.Some? && IsRetryable(a.error.value) && a.retryable
    && a.payload.None?
  }

  ghost predicate Settled(attempts: seq<Attempt>) {
    forall i :: 0 <= i < |attempts| ==> SettledAt(attempts[i], i)
  }

  /** All attempts but the last are settled; the last one has its number. */
  ghost predicate SettledBefore(attempts: seq<Attempt>) {
    && attempts != []
    && Settled(attempts[..|attempts| - 1])
    && attempts[|attempts| - 1].number == |attempts|
  }

  ghost predicate OpenLast(a: Attempt) {
    a.finishedAt.None? && a.outcome.None? && a.payload.None?
  }

  ghost predicate SucceededLast(a: Attempt) {
    a.finishedAt.Some? && a.claimedAt <= a.finishedAt.value && a.outcome == Some(Success) && a.payload.Some?
  }

  ghost predicate RejectedLast(a: Attempt) {
    && a.finishedAt.Some? && a.claimedAt <= a.finishedAt.value
    && a.outcome == Some(Failure) && a.error.Some? && !IsRetryable(a.error.value) && !a.retryable && a.payload.None?
  }

  /** `claim` gave up: the stored policy is unreadable, or it allows more attempts than the worker does. */
  ghost predicate Exhausted(c: Config, p: Result<RetryPolicy>, run: Run, n: nat) {
    && run.error == Some(InvalidStoredPolicy)
    && (p.Err? || (p.value.maxAttempts > c.maxAttempts && n == c.maxAttempts))
  }

  ghost predicate StatusOk(c: Config, p: Result<RetryPolicy>, run: Run, attempts: seq<Attempt>) {
    match run.status
    case Queued => Settled(attempts) && (attempts != [] ==> p.Ok? && |attempts| < p.value.maxAttempts)
    case RetryScheduled => Settled(attempts) && (attempts != [] ==> p.Ok? && |attempts| < p.value.maxAttempts)
    case Running => SettledBefore(attempts) && OpenLast(attempts[|attempts| - 1])
    case Succeeded =>
      SettledBefore(attempts) && SucceededLast(attempts[|attempts| - 1]) && run.result == attempts[|attempts| - 1].payload
    case DeadLettered => Settled(attempts) && p.Ok? && attempts != [] && |attempts| == p.value.maxAttempts
    case Failed =>
      || (SettledBefore(attempts) && RejectedLast(attempts[|attempts| - 1]))
      || (Settled(attempts) && Exhausted(c, p, run, |attempts|))
  }

  /** The lease belongs to the open attempt, and there is none otherwise; marks match the status. */
  ghost predicate FieldsOk(c: Config, run: Run, attempts: seq<Attempt>) {
    && (if run.status.Running? then
          && attempts != []
          && run.leaseOwner == Some(attempts[|attempts| - 1].worker)
          && run.leaseExpires == Some(attempts[|attempts| - 1].claimedAt + c.leaseSeconds)
        else run.leaseOwner.None? && run.leaseExpires.None?)
    && (run.completedAt.Some? <==> Terminal(run.status))
    && (run.nextAttemptAt.Some? <==> run.status.RetryScheduled?)
    && (run.result.Some? <==> run.status.Succeeded?)
  }

  ghost predicate WithinBounds(c: Config, p: Result<RetryPolicy>, n: nat) {
    n > 0 ==> p.Ok? && n <= Min(p.value.maxAttempts, c.maxAttempts)
  }

  /** Attempt i was claimed no sooner than the backoff after attempt i - 1 finished. */
  ghost predicate SpacedAt(p: RetryPolicy, earlier: Attempt, later: Attempt, i: int)
    requires i >= 1
  {
    earlier.finishedAt.Some? && later.claimedAt >= earlier.finishedAt.value + Delay(p, i)
  }

  ghost predicate Spaced(p: RetryPolicy, attempts: seq<Attempt>) {
    forall i :: 0 < i < |attempts| ==> SpacedAt(p, attempts[i - 1], attempts[i], i)
  }

  /** Until it reports a success, an attempt runs on the provider its number selects. */
  ghost predicate Routed(p: RetryPolicy, attempts: seq<Attempt>)
    requires Valid(p)
  {
    forall i :: 0 <= i < |attempts| ==>
      attempts[i].outcome == Some(Success) || attempts[i].provider == ProviderFor(p, i + 1)
  }

  /** The next claim cannot come before `due`. */
  ghost predicate NotBefore(p: RetryPolicy, attempts: seq<Attempt>, due: Time)
    requires attempts != []
  {
    var last := attempts[|attempts| - 1];
    last.finishedAt.Some? && due >= last.finishedAt.value + Delay(p, |attempts|)
  }

  ghost predicate TimesOk(clock: Time, p: Result<RetryPolicy>, run: Run, attempts: seq<Attempt>) {
    && run.queuedAt <= clock
    && (attempts != [] ==> AttemptTimesOk(clock, p, run, attempts))
  }

  ghost predicate AttemptTimesOk(clock: Time, p: Result<RetryPolicy>, run: Run, attempts: seq<Attempt>)
    requires attempts != []
  {
    && p.Ok? && Valid(p.value)
    && Spaced(p.value, attempts)
    && Routed(p.value, attempts)
    && attempts[|attempts| - 1].claimedAt <= clock
    && (run.status.Queued? ==> NotBefore(p.value, attempts, run.queuedAt))
    && (run.status.RetryScheduled? && run.nextAttemptAt.Some? ==> NotBefore(p.value, attempts, run.nextAttemptAt.value))
  }

  ghost predicate AttemptsInv(c: Config, clock: Time, p: Result<RetryPolicy>, run: Run, attempts: seq<Attempt>) {
    && (p.Ok? ==> Valid(p.value))
    && WithinBounds(c, p, |attempts|)
    && StatusOk(c, p, run, attempts)
    && FieldsOk(c, run, attempts)
    && TimesOk(clock, p, run, attempts)
  }

  // ---------------------------------------------------------------------------------------
  // Events and outbox
  // ---------------------------------------------------------------------------------------

  /** One row of the outbox agrees with the events that publishing it left behind. */
  ghost predicate RowOk(events: multiset<Event>, outbox: seq<OutboxRow>, i: nat) {
    if i < |outbox| then
      && outbox[i].publishAttempts == events[OutboxPublished(i)] + events[OutboxPublishFailed(i)]
      && events[OutboxPublished(i)] == (if outbox[i].publishedAt.Some? then 1 else 0)
    else events[OutboxPublished(i)] == 0 && events[OutboxPublishFailed(i)] == 0
  }

  ghost predicate ClaimsOk(events: multiset<Event>, n: nat) {
    forall k :: events[RunClaimed(k)] == if 1 <= k <= n then 1 else 0
  }

  /** The event log, the attempts and the outbox tell the same story. */
  ghost predicate LedgerInv(dead: bool, n: nat, events: multiset<Event>, outbox: seq<OutboxRow>) {
    && ClaimsOk(events, n)
    && |outbox| == 1 + events[RunRetryQueued] + (if dead then 1 else 0)
    && (forall i :: 0 <= i < |outbox| ==> (outbox[i].delivery.DeadLetterRun? <==> dead && i == |outbox| - 1))
    && forall i: nat :: RowOk(events, outbox, i)
  }

  // ---------------------------------------------------------------------------------------
  // Delivery
  // ---------------------------------------------------------------------------------------

  ghost predicate Unpublished(outbox: seq<OutboxRow>, i: nat) {
    i < |outbox| && outbox[i].delivery.QueueRun? && outbox[i].publishedAt.None?
  }

  ghost predicate AwaitsDecision(deliveries: seq<Phase>, d: nat) {
    d < |deliveries| && deliveries[d].Undecided?
  }

  /** Something still on its way to a worker: an unsent row, a queued message, an undecided delivery. */
  ghost predicate OnItsWay(outbox: seq<OutboxRow>, queued: nat, deliveries: seq<Phase>) {
    || queued > 0
    || (exists i: nat :: Unpublished(outbox, i))
    || (exists d: nat :: AwaitsDecision(deliveries, d))
  }

  /** How many cases an executor has turned to. */
  function Turns(cases: nat, at: Position): nat {
    if at.target == 0 then at.done else if at.target == 1 then cases + at.done else 2 * cases
  }

  /**
   An executor has paid for no more than the cases it has turned to, every call is paid for, and
   at most one payment is still without its call.
   */
  ghost predicate ExecutorOk(targets: nat, cases: nat, x: Spending) {
    && targets <= 2
    && x.position.target <= targets
    && (x.position.done == 0 || (x.position.target < targets && x.position.done < cases))
    && x.charges + (if x.activity.Calling? then 1 else 0) <= Turns(cases, x.position)
    && x.calls <= x.charges <= x.calls + 1
    && (x.charges == x.calls + 1 ==> x.activity.Paid? || x.activity.Halted?)
    && (x.activity.Paid? ==> x.charges == x.calls + 1)
  }

  ghost predicate SpendingInv(c: Config, a: Accepted, n: nat, spending: seq<Spending>) {
    && |spending| == n
    && forall i :: 0 <= i < |spending| ==> ExecutorOk(Targets(c, a), Cases(c, a), spending[i])
  }

  // ---------------------------------------------------------------------------------------
  // Evaluation lifecycle
  // ---------------------------------------------------------------------------------------

  function Verdict(run: Run): EvaluationStatus {
    if run.status.Succeeded? then if run.result.Some? && run.result.value.passed then Passed else NotPassed
    else EvaluationError
  }

  /** An evaluation is pending exactly while its job is not terminal, and then says how the job ended. */
  ghost predicate EvaluationInv(kind: WorkKind, run: Run, evaluation: Option<Evaluation>) {
    && (kind.EvaluationWork? <==> evaluation.Some?)
    && (evaluation.Some? ==>
          var v := evaluation.value;
          if Terminal(run.status) then
            && v.status == Verdict(run)
            && v.completedAt == run.completedAt
            && v.result == (if run.status.Succeeded? then run.result else None)
          else v.status.Pending? && v.completedAt.None? && v.result.None?)
  }

  ghost predicate RowsInv(c: Config, clock: Time, e: Entry) {
    && AttemptsInv(c, clock, Policy(e), e.run, e.attempts)
    && LedgerInv(e.run.status.DeadLettered?, |e.attempts|, multiset(e.events), e.outbox)
    && (e.run.status.Queued? ==> OnItsWay(e.outbox, e.queued, e.deliveries))
    && SpendingInv(c, e.accepted, |e.attempts|, e.spending)
  }

  // ---------------------------------------------------------------------------------------
  // What the code reads back
  // ---------------------------------------------------------------------------------------

  lemma {:induction false} MaxNumberIsLength(attempts: seq<Attempt>)
    requires forall i :: 0 <= i < |attempts| ==> attempts[i].number == i + 1
    ensures MaxNumber(attempts) == |attempts|
  {
    if attempts != [] {
      MaxNumberIsLength(attempts[..|attempts| - 1]);
    }
  }

  lemma OpenAttemptIsLast(attempts: seq<Attempt>)
    requires SettledBefore(attempts) && OpenLast(attempts[|attempts| - 1])
    ensures LatestOpen(attempts) == Some(|attempts| - 1)
  {
  }

  // ---------------------------------------------------------------------------------------
  // Each transaction keeps the attempts' invariant
  // ---------------------------------------------------------------------------------------

  lemma LeasedAttempts(c: Config, clock: Time, e: Entry, p: RetryPolicy, worker: Ident, now: Time, txStart: Time)
    requires Valid(p) && AttemptsInv(c, clock, Ok(p), e.run, e.attempts) && e.run.status.Queued?
    requires |e.attempts| + 1 <= Min(p.maxAttempts, c.maxAttempts) && e.run.queuedAt <= now <= clock
    ensures var e' := Leased(c, e, p, |e.attempts| + 1, worker, now, txStart);
            AttemptsInv(c, clock, Ok(p), e'.run, e'.attempts)
  {
    var e' := Leased(c, e, p, |e.attempts| + 1, worker, now, txStart);
    assert e'.attempts[..|e.attempts|] == e.attempts;
    forall i | 0 < i < |e'.attempts|
      ensures SpacedAt(p, e'.attempts[i - 1], e'.attempts[i], i)
    {
      if i < |e.attempts| {
        assert SpacedAt(p, e.attempts[i - 1], e.attempts[i], i);
      }
    }
  }

  lemma SettledExtends(attempts: seq<Attempt>, a: Attempt)
    requires SettledBefore(attempts)
    requires SettledAt(a, |attempts| - 1)
    ensures Settled(attempts[|attempts| - 1 := a])
  {
  }

  /** Closing the open attempt leaves everything before it, and the spacing, as it was. */
  lemma ClosingLast(p: RetryPolicy, attempts: seq<Attempt>, a: Attempt)
    requires Valid(p) && SettledBefore(attempts) && Spaced(p, attempts) && Routed(p, attempts)
    requires a.claimedAt == attempts[|attempts| - 1].claimedAt && a.number == |attempts|
    requires a.outcome == Some(Success) ||
             (a.provider == attempts[|attempts| - 1].provider && attempts[|attempts| - 1].outcome != Some(Success))
    ensures SettledBefore(attempts[|attempts| - 1 := a])
    ensures Spaced(p, attempts[|attempts| - 1 := a]) && Routed(p, attempts[|attempts| - 1 := a])
  {
  }

  lemma SucceededAttempts(c: Config, clock: Time, e: Entry, p: Result<RetryPolicy>, now: Time, payload: Payload, provider: string)
    requires AttemptsInv(c, clock, p, e.run, e.attempts) && e.run.status.Running?
    requires e.attempts[|e.attempts| - 1].claimedAt <= now <= clock
    ensures var e' := SucceededRows(e, |e.attempts| - 1, now, payload, provider);
            AttemptsInv(c, clock, p, e'.run, e'.attempts)
  {
  }

  lemma FailedAttempts(c: Config, clock: Time, e: Entry, p: Result<RetryPolicy>, now: Time, code: ErrorCode)
    requires AttemptsInv(c, clock, p, e.run, e.attempts) && e.run.status.Running?
    requires e.attempts[|e.attempts| - 1].claimedAt <= now <= clock
    ensures var e' := FailedRows(e, p.value, |e.attempts| - 1, now, code);
            AttemptsInv(c, clock, p, e'.run, e'.attempts)
  {
    var e' := FailedRows(e, p.value, |e.attempts| - 1, now, code);
    var a := e'.attempts[|e.attempts| - 1];
    ClosingLast(p.value, e.attempts, a);
    if IsRetryable(code) {
      SettledExtends(e.attempts, a);
    }
  }

  // ---------------------------------------------------------------------------------------
  // Each transaction keeps the ledger
  // ---------------------------------------------------------------------------------------

  /** Events that are neither claims, requeues nor publications do not concern the ledger. */
  predicate Unrelated(ev: Event) {
    !ev.RunClaimed? && !ev.RunRetryQueued? && !ev.OutboxPublished? && !ev.OutboxPublishFailed?
  }

  lemma LedgerIgnores(dead: bool, n: nat, events: seq<Event>, ev: Event, outbox: seq<OutboxRow>)
    requires LedgerInv(dead, n, multiset(events), outbox) && Unrelated(ev)
    ensures LedgerInv(dead, n, multiset(events + [ev]), outbox)
  {
    assert multiset(events + [ev]) == multiset(events) + multiset{ev};
    forall i: nat ensures RowOk(multiset(events + [ev]), outbox, i) {
      assert RowOk(multiset(events), outbox, i);
    }
  }

  lemma LedgerClaims(n: nat, events: seq<Event>, outbox: seq<OutboxRow>)
    requires LedgerInv(false, n, multiset(events), outbox)
    ensures LedgerInv(false, n + 1, multiset(events + [RunClaimed(n + 1)]), outbox)
  {
    var ev := RunClaimed(n + 1);
    assert multiset(events + [ev]) == multiset(events) + multiset{ev};
    forall i: nat ensures RowOk(multiset(events + [ev]), outbox, i) {
      assert RowOk(multiset(events), outbox, i);
    }
  }

  /** A requeue adds one delivery and its event; a dead letter adds the closing delivery. */
  lemma LedgerGrows(n: nat, events: seq<Event>, ev: Event, outbox: seq<OutboxRow>, delivery: Delivery)
    requires LedgerInv(false, n, multiset(events), outbox)
    requires if delivery.QueueRun? then ev.RunRetryQueued? else Unrelated(ev)
    ensures LedgerInv(delivery.DeadLetterRun?, n, multiset(events + [ev]), outbox + [NewOutboxRow(delivery)])
  {
    var outbox' := outbox + [NewOutboxRow(delivery)];
    assert multiset(events + [ev]) == multiset(events) + multiset{ev};
    forall i: nat ensures RowOk(multiset(events + [ev]), outbox', i) {
      assert RowOk(multiset(events), outbox, i);
    }
  }

  lemma LedgerPublishes(dead: bool, n: nat, events: seq<Event>, outbox: seq<OutboxRow>, row: nat, ev: Event, o: OutboxRow)
    requires LedgerInv(dead, n, multiset(events), outbox) && row < |outbox|
    requires outbox[row].publishedAt.None? && o.delivery == outbox[row].delivery
    requires o.publishAttempts == outbox[row].publishAttempts + 1
    requires ev == if o.publishedAt.Some? then OutboxPublished(row) else OutboxPublishFailed(row)
    ensures LedgerInv(dead, n, multiset(events + [ev]), outbox[row := o])
  {
    var outbox' := outbox[row := o];
    assert multiset(events + [ev]) == multiset(events) + multiset{ev};
    forall i: nat ensures RowOk(multiset(events + [ev]), outbox', i) {
      assert RowOk(multiset(events), outbox, i);
    }
  }

  // ---------------------------------------------------------------------------------------
  // Each transaction keeps the whole
  // ---------------------------------------------------------------------------------------

  lemma LaterKeeps(c: Config, clock: Time, later: Time, e: Entry)
    requires RowsInv(c, clock, e) && clock <= later
    ensures RowsInv(c, later, e)
  {
  }

  lemma NewEntryKeeps(c: Config, clock: Time, accepted: Accepted, first: Event, ev: Option<Evaluation>)
    requires first.RunQueued? || first.RunReplayQueued?
    ensures RowsInv(c, clock, NewEntry(accepted, first, ev, clock))
  {
    var e := NewEntry(accepted, first, ev, clock);
    assert Unpublished(e.outbox, 0);
    assert multiset(e.events) == multiset{first};
  }

  lemma DeferredKeeps(c: Config, clock: Time, e: Entry, now: Time)
    requires RowsInv(c, clock, e) && e.run.status.Queued? && e.run.queuedAt <= now <= clock
    ensures RowsInv(c, clock, Deferred(e, now))
  {
  }

  lemma PolicyRejectedKeeps(c: Config, clock: Time, e: Entry, now: Time)
    requires ValidConfig(c) && RowsInv(c, clock, e) && e.run.status.Queued?
    requires Policy(e).Err? || |e.attempts| + 1 > Min(Policy(e).value.maxAttempts, c.maxAttempts)
    ensures RowsInv(c, clock, PolicyRejected(e, now))
  {
  }

  lemma LeasedKeeps(c: Config, clock: Time, e: Entry, worker: Ident, now: Time, txStart: Time)
    requires RowsInv(c, clock, e) && e.run.status.Queued? && Policy(e).Ok?
    requires |e.attempts| + 1 <= Min(Policy(e).value.maxAttempts, c.maxAttempts) && e.run.queuedAt <= now <= clock
    ensures RowsInv(c, clock, Leased(c, e, Policy(e).value, |e.attempts| + 1, worker, now, txStart))
  {
    LeasedAttempts(c, clock, e, Policy(e).value, worker, now, txStart);
    LedgerClaims(|e.attempts|, e.events, e.outbox);
  }

  lemma SucceededKeeps(c: Config, clock: Time, e: Entry, now: Time, payload: Payload, provider: string)
    requires RowsInv(c, clock, e) && e.run.status.Running?
    requires e.attempts[|e.attempts| - 1].claimedAt <= now <= clock
    ensures RowsInv(c, clock, SucceededRows(e, |e.attempts| - 1, now, payload, provider))
  {
    SucceededAttempts(c, clock, e, Policy(e), now, payload, provider);
    LedgerIgnores(false, |e.attempts|, e.events, RunSucceeded(|e.attempts|), e.outbox);
  }

  lemma FailedKeeps(c: Config, clock: Time, e: Entry, now: Time, code: ErrorCode)
    requires RowsInv(c, clock, e) && e.run.status.Running?
    requires e.attempts[|e.attempts| - 1].claimedAt <= now <= clock
    ensures RowsInv(c, clock, FailedRows(e, Policy(e).value, |e.attempts| - 1, now, code))
  {
    FailedAttempts(c, clock, e, Policy(e), now, code);
    var n := |e.attempts|;
    LedgerIgnores(false, n, e.events, RunRetryScheduled(n), e.outbox);
    LedgerIgnores(false, n, e.events, RunFailed(n), e.outbox);
    LedgerGrows(n, e.events, RunDeadLettered(n), e.outbox, DeadLetterRun);
  }

  lemma RequeuedKeeps(c: Config, clock: Time, e: Entry, now: Time)
    requires RowsInv(c, clock, e) && RetryIsDue(e, now) && now <= clock
    ensures RowsInv(c, clock, RequeuedRows(e, clock))
  {
    LedgerGrows(|e.attempts|, e.events, RunRetryQueued, e.outbox, QueueRun);
    assert Unpublished(RequeuedRows(e, clock).outbox, |e.outbox|);
  }

  lemma PublishedKeeps(c: Config, clock: Time, e: Entry, row: nat, now: Time, p: Publication)
    requires RowsInv(c, clock, e) && row < |e.outbox| && e.outbox[row].publishedAt.None?
    ensures RowsInv(c, clock, PublishedRows(e, row, now, p))
  {
    var e' := PublishedRows(e, row, now, p);
    if !p.CrashedAfterSend? {
      LedgerPublishes(e.run.status.DeadLettered?, |e.attempts|, e.events, e.outbox, row, e'.events[|e.events|], e'.outbox[row]);
    }
    if e.run.status.Queued? && e.queued == 0 {
      if i: nat :| Unpublished(e.outbox, i) {
        assert (i == row && p.Confirmed?) || Unpublished(e'.outbox, i);
      }
    }
  }

  lemma ExecutorMoves(c: Config, a: Accepted, x: Spending, action: Action)
    requires ExecutorOk(Targets(c, a), Cases(c, a), x)
    ensures ExecutorOk(Targets(c, a), Cases(c, a), Moved(c, a, x, action))
  {
  }

  lemma WithExecutorKeeps(c: Config, clock: Time, e: Entry, slot: nat, x: Spending)
    requires RowsInv(c, clock, e) && slot < |e.spending| && ExecutorOk(Targets(c, e.accepted), Cases(c, e.accepted), x)
    ensures RowsInv(c, clock, WithExecutor(e, slot, x))
  {
  }

  /** The bound follows from the loops: an executor of a run has paid at most once per case and target. */
  lemma ChargesWithinLoops(c: Config, a: Accepted, x: Spending)
    requires ExecutorOk(Targets(c, a), Cases(c, a), x)
    ensures x.charges <= Turns(Cases(c, a), x.position) <= Loops(c, a)
  {
  }
}
