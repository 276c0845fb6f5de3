/**
 Provider-call quotas: fixed windows aligned to the database clock, one counter per
 principal and one per tenant. The ledger pairs the counter rows with the history of
 accepted charges, so that what the counters promise can be stated about real charges.
 */
module Quota {
  import opened Domain

  datatype Scope = PrincipalScope(id: Ident) | TenantScope(id: Ident)

  datatype Limits = Limits(principalCalls: nat, tenantCalls: nat, windowSeconds: int)

  datatype Row = Row(windowStart: int, used: nat)

  /** One request for a provider call, made by attempt slot `slot` of run `run`. */
  datatype Charge = Charge(principal: Ident, tenant: Ident, epoch: int, run: nat, slot: nat)

  datatype Ledger = Ledger(rows: map<Scope, Row>, log: seq<Charge>)

  function Window(now: int, windowSeconds: int): int
    requires windowSeconds > 0
  {
    now / windowSeconds * windowSeconds
  }

  function Limit(limits: Limits, scope: Scope): nat {
    if scope.PrincipalScope? then limits.principalCalls else limits.tenantCalls
  }

  /** Calls already counted against a scope in a window: stale and missing rows count as none. */
  function Spent(rows: map<Scope, Row>, scope: Scope, window: int): nat {
    if scope in rows && rows[scope].windowStart == window then rows[scope].used else 0
  }

  /** `check_provider_budget`: would both scopes still accept a call? */
  predicate WithinBudget(rows: map<Scope, Row>, limits: Limits, principal: Ident, tenant: Ident, epoch: int)
    requires limits.windowSeconds > 0
  {
    var window := Window(epoch, limits.windowSeconds);
    && Spent(rows, PrincipalScope(principal), window) < limits.principalCalls
    && Spent(rows, TenantScope(tenant), window) < limits.tenantCalls
  }

  function Counted(rows: map<Scope, Row>, scope: Scope, window: int): map<Scope, Row> {
    rows[scope := Row(window, Spent(rows, scope, window) + 1)]
  }

  /** The counters after an accepted charge. */
  function ChargedRows(rows: map<Scope, Row>, limits: Limits, c: Charge): map<Scope, Row>
    requires limits.windowSeconds > 0
  {
    var window := Window(c.epoch, limits.windowSeconds);
    Counted(Counted(rows, PrincipalScope(c.principal), window), TenantScope(c.tenant), window)
  }

  /** `charge_provider_call`: a refusal rolls the transaction back. */
  function TryCharge(l: Ledger, limits: Limits, c: Charge): (Ledger, bool)
    requires limits.windowSeconds > 0
  {
    if WithinBudget(l.rows, limits, c.principal, c.tenant, c.epoch)
    then (Ledger(ChargedRows(l.rows, limits, c), l.log + [c]), true)
    else (l, false)
  }

  // ---------------------------------------------------------------------------------------
  // The same, from two rows that were read earlier
  // ---------------------------------------------------------------------------------------

  function Stored(rows: map<Scope, Row>, scope: Scope): Option<Row> {
    if scope in rows then Some(rows[scope]) else None
  }

  function SpentIn(row: Option<Row>, window: int): nat {
    if row.Some? && row.value.windowStart == window then row.value.used else 0
  }

  predicate RowsAllow(limits: Limits, principal: Option<Row>, tenant: Option<Row>, epoch: int)
    requires limits.windowSeconds > 0
  {
    var window := Window(epoch, limits.windowSeconds);
    SpentIn(principal, window) < limits.principalCalls && SpentIn(tenant, window) < limits.tenantCalls
  }

  /** Both counters are written from what was read. */
  function Overwritten(rows: map<Scope, Row>, limits: Limits, c: Charge, principal: Option<Row>, tenant: Option<Row>): map<Scope, Row>
    requires limits.windowSeconds > 0
  {
    var window := Window(c.epoch, limits.windowSeconds);
    rows[PrincipalScope(c.principal) := Row(window, SpentIn(principal, window) + 1)]
        [TenantScope(c.tenant) := Row(window, SpentIn(tenant, window) + 1)]
  }

  /** Nothing is lost if the rows are still what was read. */
  lemma OverwrittenIsCharged(l: Ledger, limits: Limits, c: Charge)
    requires limits.windowSeconds > 0
    ensures var p, t := Stored(l.rows, PrincipalScope(c.principal)), Stored(l.rows, TenantScope(c.tenant));
            && RowsAllow(limits, p, t, c.epoch) == WithinBudget(l.rows, limits, c.principal, c.tenant, c.epoch)
            && Overwritten(l.rows, limits, c, p, t) == ChargedRows(l.rows, limits, c)
  {
  }

  // ---------------------------------------------------------------------------------------
  // What a window, or any interval, has been charged
  // ---------------------------------------------------------------------------------------

  predicate Against(c: Charge, scope: Scope) {
    match scope
    case PrincipalScope(id) => c.principal == id
    case TenantScope(id) => c.tenant == id
  }

  function InWindow(log: seq<Charge>, scope: Scope, window: int, windowSeconds: int): nat
    requires windowSeconds > 0
  {
    if log == [] then 0 else
    var c := log[|log| - 1];
    InWindow(log[..|log| - 1], scope, window, windowSeconds) +
    if Against(c, scope) && Window(c.epoch, windowSeconds) == window then 1 else 0
  }

  function Between(log: seq<Charge>, scope: Scope, lo: int, hi: int): nat {
    if log == [] then 0 else
    var c := log[|log| - 1];
    Between(log[..|log| - 1], scope, lo, hi) +
    if Against(c, scope) && lo <= c.epoch < hi then 1 else 0
  }

  /** Charges made by one attempt of one run. */
  function ByAttempt(log: seq<Charge>, run: nat, slot: nat): nat {
    if log == [] then 0 else
    var c := log[|log| - 1];
    ByAttempt(log[..|log| - 1], run, slot) + if c.run == run && c.slot == slot then 1 else 0
  }

  lemma InWindowAppend(log: seq<Charge>, c: Charge, scope: Scope, window: int, windowSeconds: int)
    requires windowSeconds > 0
    ensures InWindow(log + [c], scope, window, windowSeconds) ==
            InWindow(log, scope, window, windowSeconds) +
            if Against(c, scope) && Window(c.epoch, windowSeconds) == window then 1 else 0
  {
  }

  lemma ByAttemptAppend(log: seq<Charge>, c: Charge, run: nat, slot: nat)
    ensures ByAttempt(log + [c], run, slot) ==
            ByAttempt(log, run, slot) + if c.run == run && c.slot == slot then 1 else 0
  {
  }

  lemma ScaleMonotone(w: int, x: int, y: int)
    requires w >= 0 && x <= y
    ensures x * w <= y * w
  {
  }

  lemma WindowBounds(e: int, w: int)
    requires w > 0
    ensures Window(e, w) <= e < Window(e, w) + w
  {
  }

  /** The k-th window's charges are those dated within its length. */
  lemma {:induction false} WindowIsInterval(log: seq<Charge>, scope: Scope, k: int, w: int)
    requires w > 0
    ensures InWindow(log, scope, k * w, w) == Between(log, scope, k * w, k * w + w)
  {
    if log != [] {
      WindowIsInterval(log[..|log| - 1], scope, k, w);
      InItsWindow(log[|log| - 1].epoch, k, w);
    }
  }

  lemma InItsWindow(e: int, k: int, w: int)
    requires w > 0
    ensures Window(e, w) == k * w <==> k * w <= e < k * w + w
  {
    WindowBounds(e, w);
    if k * w <= e / w * w {
      NextWindow(k, e / w, w);
    } else {
      NextWindow(e / w, k, w);
    }
  }

  lemma WindowMonotone(a: int, b: int, w: int)
    requires w > 0 && a <= b
    ensures Window(a, w) <= Window(b, w)
  {
    WindowBounds(a, w);
    WindowBounds(b, w);
    if a / w > b / w {
      ScaleMonotone(w, b / w + 1, a / w);
    } else {
      ScaleMonotone(w, a / w, b / w);
    }
  }

  /** An interval of one window's length touches two aligned windows at most. */
  lemma TwoWindows(a: int, e: int, w: int)
    requires w > 0 && a <= e < a + w
    ensures Window(e, w) == Window(a, w) || Window(e, w) == Window(a, w) + w
  {
    WindowBounds(a, w);
    WindowBounds(e, w);
    WindowMonotone(a, e, w);
    NextWindow(a / w, e / w, w);
  }

  /** Multiples of the window are equal, adjacent or at least two apart. */
  lemma NextWindow(x: int, y: int, w: int)
    requires w > 0 && x * w <= y * w
    ensures y * w == x * w || y * w == x * w + w || y * w >= x * w + 2 * w
  {
    if y > x + 1 {
      ScaleMonotone(w, x + 2, y);
    } else if y < x {
      ScaleMonotone(w, y, x);
    }
  }

  // ---------------------------------------------------------------------------------------
  // Counters that agree with the charges
  // ---------------------------------------------------------------------------------------

  function LastFor(log: seq<Charge>, scope: Scope): Option<Charge> {
    if log == [] then None
    else if Against(log[|log| - 1], scope) then Some(log[|log| - 1])
    else LastFor(log[..|log| - 1], scope)
  }

  /** A counter row is about the window of the scope's last charge, and counts that window's charges. */
  ghost predicate RowOk(limits: Limits, l: Ledger, scope: Scope)
    requires limits.windowSeconds > 0
  {
    match LastFor(l.log, scope)
    case None => scope !in l.rows
    case Some(last) =>
      var window := Window(last.epoch, limits.windowSeconds);
      scope in l.rows && l.rows[scope] == Row(window, InWindow(l.log, scope, window, limits.windowSeconds))
  }

  ghost predicate WindowOk(limits: Limits, l: Ledger, scope: Scope, window: int)
    requires limits.windowSeconds > 0
  {
    InWindow(l.log, scope, window, limits.windowSeconds) <= Limit(limits, scope)
  }

  ghost predicate Books(limits: Limits, l: Ledger) {
    && limits.windowSeconds > 0
    && (forall scope :: RowOk(limits, l, scope))
    && (forall scope, window :: WindowOk(limits, l, scope, window))
  }

  /** Once a scope was charged in the window, it has not been charged in another one. */
  ghost predicate NotLeft(log: seq<Charge>, scope: Scope, window: int, w: int)
    requires w > 0
  {
    forall i, j :: 0 <= i < j < |log| && Against(log[i], scope) && Against(log[j], scope) && Window(log[i].epoch, w) == window ==>
      Window(log[j].epoch, w) == window
  }

  lemma {:induction false} NoneInWindow(log: seq<Charge>, scope: Scope, window: int, w: int)
    requires w > 0
    requires forall i :: 0 <= i < |log| && Against(log[i], scope) ==> Window(log[i].epoch, w) != window
    ensures InWindow(log, scope, window, w) == 0
  {
    if log != [] {
      NoneInWindow(log[..|log| - 1], scope, window, w);
    }
  }

  lemma {:induction false} LastIs(log: seq<Charge>, scope: Scope) returns (j: nat)
    ensures LastFor(log, scope).None? ==> forall i :: 0 <= i < |log| ==> !Against(log[i], scope)
    ensures LastFor(log, scope).Some? ==>
              && j < |log| && log[j] == LastFor(log, scope).value && Against(log[j], scope)
              && forall i :: j < i < |log| ==> !Against(log[i], scope)
  {
    j := 0;
    if log != [] {
      var n := |log| - 1;
      if Against(log[n], scope) {
        j := n;
      } else {
        j := LastIs(log[..n], scope);
      }
    }
  }

  /** What `Spent` reads for a window that the scope has not left is what it was charged there. */
  lemma SpentIsCharged(limits: Limits, l: Ledger, scope: Scope, window: int)
    requires limits.windowSeconds > 0 && RowOk(limits, l, scope) && NotLeft(l.log, scope, window, limits.windowSeconds)
    ensures Spent(l.rows, scope, window) == InWindow(l.log, scope, window, limits.windowSeconds)
  {
    var j := LastIs(l.log, scope);
    if LastFor(l.log, scope).None? || Window(l.log[j].epoch, limits.windowSeconds) != window {
      NoneInWindow(l.log, scope, window, limits.windowSeconds);
    }
  }

  /** The charge's window is one that neither of its scopes has left. */
  ghost predicate Current(limits: Limits, log: seq<Charge>, c: Charge)
    requires limits.windowSeconds > 0
  {
    var window := Window(c.epoch, limits.windowSeconds);
    && NotLeft(log, PrincipalScope(c.principal), window, limits.windowSeconds)
    && NotLeft(log, TenantScope(c.tenant), window, limits.windowSeconds)
  }

  lemma ChargeKeepsRow(limits: Limits, l: Ledger, c: Charge, scope: Scope)
    requires limits.windowSeconds > 0 && RowOk(limits, l, scope) && Current(limits, l.log, c)
    requires WithinBudget(l.rows, limits, c.principal, c.tenant, c.epoch)
    ensures RowOk(limits, TryCharge(l, limits, c).0, scope)
  {
    var w := limits.windowSeconds;
    var l' := TryCharge(l, limits, c).0;
    assert l'.log == l.log + [c] && l'.log[..|l.log|] == l.log;
    if Against(c, scope) {
      var window := Window(c.epoch, w);
      SpentIsCharged(limits, l, scope, window);
      assert l'.rows[scope] == Row(window, Spent(l.rows, scope, window) + 1);
    } else {
      assert LastFor(l'.log, scope) == LastFor(l.log, scope);
    }
  }

  lemma ChargeKeepsWindow(limits: Limits, l: Ledger, c: Charge, scope: Scope, window: int)
    requires limits.windowSeconds > 0 && RowOk(limits, l, scope) && WindowOk(limits, l, scope, window) && Current(limits, l.log, c)
    requires WithinBudget(l.rows, limits, c.principal, c.tenant, c.epoch)
    ensures WindowOk(limits, TryCharge(l, limits, c).0, scope, window)
  {
    InWindowAppend(l.log, c, scope, window, limits.windowSeconds);
    if Against(c, scope) && Window(c.epoch, limits.windowSeconds) == window {
      SpentIsCharged(limits, l, scope, window);
    }
  }

  /** A charge in a window that its scopes have not left keeps the books, accepted or refused. */
  lemma ChargeKeepsBooks(limits: Limits, l: Ledger, c: Charge)
    requires Books(limits, l) && Current(limits, l.log, c)
    ensures Books(limits, TryCharge(l, limits, c).0)
  {
    if WithinBudget(l.rows, limits, c.principal, c.tenant, c.epoch) {
      var l' := TryCharge(l, limits, c).0;
      forall scope ensures RowOk(limits, l', scope) {
        ChargeKeepsRow(limits, l, c, scope);
      }
      forall scope, window ensures WindowOk(limits, l', scope, window) {
        assert RowOk(limits, l, scope) && WindowOk(limits, l, scope, window);
        ChargeKeepsWindow(limits, l, c, scope, window);
      }
    }
  }

  // ---------------------------------------------------------------------------------------
  // Charges that share a lock are made one after the other
  // ---------------------------------------------------------------------------------------

  predicate Shares(a: Charge, b: Charge) {
    a.principal == b.principal || a.tenant == b.tenant
  }

  /** Charges of the same principal or tenant are dated in the order in which they were made. */
  ghost predicate InOrder(log: seq<Charge>) {
    forall i, j :: 0 <= i < j < |log| && Shares(log[i], log[j]) ==> log[i].epoch <= log[j].epoch
  }

  /** A charge dated no earlier than any that shares a scope with it. */
  predicate Follows(log: seq<Charge>, c: Charge) {
    forall i :: 0 <= i < |log| && Shares(log[i], c) ==> log[i].epoch <= c.epoch
  }

  ghost predicate Inv(limits: Limits, l: Ledger, now: int) {
    && Books(limits, l)
    && InOrder(l.log)
    && forall i :: 0 <= i < |l.log| ==> l.log[i].epoch <= now
  }

  lemma OrderedIsCurrent(limits: Limits, log: seq<Charge>, c: Charge)
    requires limits.windowSeconds > 0 && InOrder(log) && Follows(log, c)
    ensures Current(limits, log, c)
  {
    forall i, j | 0 <= i < j < |log| && Shares(log[i], log[j]) && Shares(log[i], c) && Shares(log[j], c)
      ensures Window(log[i].epoch, limits.windowSeconds) <= Window(log[j].epoch, limits.windowSeconds) <= Window(c.epoch, limits.windowSeconds)
    {
      WindowMonotone(log[i].epoch, log[j].epoch, limits.windowSeconds);
      WindowMonotone(log[j].epoch, c.epoch, limits.windowSeconds);
    }
  }

  /** A charge dated after those that share a scope with it keeps the invariant. */
  lemma ChargeKeepsInv(limits: Limits, l: Ledger, c: Charge, now: int)
    requires Inv(limits, l, now) && c.epoch <= now && Follows(l.log, c)
    ensures Inv(limits, TryCharge(l, limits, c).0, now)
  {
    OrderedIsCurrent(limits, l.log, c);
    ChargeKeepsBooks(limits, l, c);
  }

  lemma {:induction false} BetweenTwoWindows(log: seq<Charge>, scope: Scope, a: int, w: int)
    requires w > 0
    ensures Between(log, scope, a, a + w) <=
            InWindow(log, scope, Window(a, w), w) + InWindow(log, scope, Window(a, w) + w, w)
  {
    if log != [] {
      var c := log[|log| - 1];
      BetweenTwoWindows(log[..|log| - 1], scope, a, w);
      if a <= c.epoch < a + w {
        TwoWindows(a, c.epoch, w);
      }
    }
  }

  /** While the books are right, both bounds hold of every window and of every interval one window long. */
  lemma BookBounds(limits: Limits, l: Ledger, scope: Scope, window: int, a: int)
    requires Books(limits, l)
    ensures InWindow(l.log, scope, window, limits.windowSeconds) <= Limit(limits, scope)
    ensures Between(l.log, scope, a, a + limits.windowSeconds) <= 2 * Limit(limits, scope)
  {
    var w := limits.windowSeconds;
    BetweenTwoWindows(l.log, scope, a, w);
    assert WindowOk(limits, l, scope, window);
    assert WindowOk(limits, l, scope, Window(a, w));
    assert WindowOk(limits, l, scope, Window(a, w) + w);
  }

  /**
   The advisory check at admission and the charge agree: at the same state and second one
   refuses exactly when the other does, and that is when a scope's charges in the current
   window have reached its limit. A refused charge changes nothing.
   */
  lemma BudgetCheckIsExact(limits: Limits, l: Ledger, c: Charge)
    requires Books(limits, l) && Current(limits, l.log, c)
    ensures var window := Window(c.epoch, limits.windowSeconds);
            TryCharge(l, limits, c).1 <==>
            (&& InWindow(l.log, PrincipalScope(c.principal), window, limits.windowSeconds) < limits.principalCalls
             && InWindow(l.log, TenantScope(c.tenant), window, limits.windowSeconds) < limits.tenantCalls)
    ensures TryCharge(l, limits, c).1 <==> WithinBudget(l.rows, limits, c.principal, c.tenant, c.epoch)
    ensures !TryCharge(l, limits, c).1 ==> TryCharge(l, limits, c).0 == l
  {
    assert RowOk(limits, l, PrincipalScope(c.principal)) && RowOk(limits, l, TenantScope(c.tenant));
    SpentIsCharged(limits, l, PrincipalScope(c.principal), Window(c.epoch, limits.windowSeconds));
    SpentIsCharged(limits, l, TenantScope(c.tenant), Window(c.epoch, limits.windowSeconds));
  }

  // ---------------------------------------------------------------------------------------
  // Whole histories, on any clock
  // ---------------------------------------------------------------------------------------

  const EMPTY := Ledger(map[], [])

  /** The ledger after a list of requests. */
  function History(limits: Limits, requests: seq<Charge>): Ledger
    requires limits.windowSeconds > 0
  {
    if requests == [] then EMPTY
    else TryCharge(History(limits, requests[..|requests| - 1]), limits, requests[|requests| - 1]).0
  }

  /** Which requests were accepted. */
  function AcceptedAt(limits: Limits, requests: seq<Charge>): seq<nat>
    requires limits.windowSeconds > 0
  {
    if requests == [] then []
    else
      var n := |requests| - 1;
      var before := AcceptedAt(limits, requests[..n]);
      if TryCharge(History(limits, requests[..n]), limits, requests[n]).1 then before + [n] else before
  }

  lemma {:induction false} LogIsAccepted(limits: Limits, requests: seq<Charge>)
    requires limits.windowSeconds > 0
    ensures var at, log := AcceptedAt(limits, requests), History(limits, requests).log;
            && |at| == |log|
            && (forall i :: 0 <= i < |at| ==> at[i] < |requests| && requests[at[i]] == log[i])
            && forall i, j :: 0 <= i < j < |at| ==> at[i] < at[j]
  {
    if requests != [] {
      LogIsAccepted(limits, requests[..|requests| - 1]);
    }
  }

  /** The clock does not come back to a window after it has shown another one. */
  ghost predicate NoReturn(clock: seq<int>, w: int)
    requires w > 0
  {
    forall i, j, k :: 0 <= i < j < k < |clock| && Window(clock[i], w) == Window(clock[k], w) ==> Window(clock[j], w) == Window(clock[i], w)
  }

  function Epochs(requests: seq<Charge>): seq<int> {
    seq(|requests|, i requires 0 <= i < |requests| => requests[i].epoch)
  }

  lemma {:induction false} HistoryBooks(limits: Limits, requests: seq<Charge>)
    requires limits.windowSeconds > 0 && NoReturn(Epochs(requests), limits.windowSeconds)
    ensures Books(limits, History(limits, requests))
  {
    if requests != [] {
      var n := |requests| - 1;
      var earlier := requests[..n];
      assert Epochs(requests)[..n] == Epochs(earlier);
      HistoryBooks(limits, earlier);
      LogIsAccepted(limits, earlier);
      var log, at := History(limits, earlier).log, AcceptedAt(limits, earlier);
      forall i, j | 0 <= i < j < |log| && Window(log[i].epoch, limits.windowSeconds) == Window(requests[n].epoch, limits.windowSeconds)
        ensures Window(log[j].epoch, limits.windowSeconds) == Window(log[i].epoch, limits.windowSeconds)
      {
        var epochs := Epochs(requests);
        assert at[i] < at[j] < n && epochs[at[i]] == log[i].epoch && epochs[at[j]] == log[j].epoch && epochs[n] == requests[n].epoch;
      }
      ChargeKeepsBooks(limits, History(limits, earlier), requests[n]);
    }
  }

  /** The requests were made at the clock's readings, in their order. */
  ghost predicate MadeAt(requests: seq<Charge>, clock: seq<int>, at: seq<nat>) {
    && |at| == |requests|
    && (forall i :: 0 <= i < |at| ==> at[i] < |clock| && requests[i].epoch == clock[at[i]])
    && forall i, j :: 0 <= i < j < |at| ==> at[i] <= at[j]
  }

  ghost predicate FollowClock(requests: seq<Charge>, clock: seq<int>) {
    exists at :: MadeAt(requests, clock, at)
  }

  /** After these requests every aligned window holds at most the scope's limit of charges. */
  ghost predicate Respected(limits: Limits, requests: seq<Charge>)
    requires limits.windowSeconds > 0
  {
    forall scope, window :: WindowOk(limits, History(limits, requests), scope, window)
  }

  lemma NoReturnRespects(limits: Limits, clock: seq<int>, requests: seq<Charge>)
    requires limits.windowSeconds > 0 && NoReturn(clock, limits.windowSeconds) && FollowClock(requests, clock)
    ensures Books(limits, History(limits, requests))
  {
    var at :| MadeAt(requests, clock, at);
    var w, epochs := limits.windowSeconds, Epochs(requests);
    forall i, j, k | 0 <= i < j < k < |epochs| && Window(epochs[i], w) == Window(epochs[k], w)
      ensures Window(epochs[j], w) == Window(epochs[i], w)
    {
      assert epochs[i] == clock[at[i]] && epochs[j] == clock[at[j]] && epochs[k] == clock[at[k]];
    }
    HistoryBooks(limits, requests);
  }

  // A clock that returns to a window lets a scope be charged there twice over.

  function Repeated(c: Charge, k: nat): seq<Charge> {
    seq(k, i requires 0 <= i < k => c)
  }

  /** Both of a charge's counters stand at `k` in the window, unless nothing was charged there. */
  ghost predicate StandAt(rows: map<Scope, Row>, c: Charge, window: int, k: nat) {
    && Spent(rows, PrincipalScope(c.principal), window) == k == Spent(rows, TenantScope(c.tenant), window)
    && (k > 0 ==> rows[PrincipalScope(c.principal)].windowStart == window == rows[TenantScope(c.tenant)].windowStart)
  }

  lemma OneAccepted(limits: Limits, l: Ledger, c: Charge, k: nat)
    requires limits.windowSeconds > 0 && k < limits.principalCalls && k < limits.tenantCalls
    requires StandAt(l.rows, c, Window(c.epoch, limits.windowSeconds), k)
    ensures var l' := TryCharge(l, limits, c).0;
            l'.log == l.log + [c] && StandAt(l'.rows, c, Window(c.epoch, limits.windowSeconds), k + 1)
  {
  }

  lemma HistoryAppend(limits: Limits, requests: seq<Charge>, c: Charge)
    requires limits.windowSeconds > 0
    ensures History(limits, requests + [c]) == TryCharge(History(limits, requests), limits, c).0
  {
    assert (requests + [c])[..|requests|] == requests;
  }

  /** In a window where nothing is spent yet, as many charges are accepted as the smaller limit allows. */
  lemma {:induction false} AllAccepted(limits: Limits, requests: seq<Charge>, c: Charge, k: nat)
    requires limits.windowSeconds > 0 && k <= limits.principalCalls && k <= limits.tenantCalls
    requires StandAt(History(limits, requests).rows, c, Window(c.epoch, limits.windowSeconds), 0)
    ensures var l' := History(limits, requests + Repeated(c, k));
            l'.log == History(limits, requests).log + Repeated(c, k) && StandAt(l'.rows, c, Window(c.epoch, limits.windowSeconds), k)
  {
    if k == 0 {
      assert requests + Repeated(c, 0) == requests;
    } else {
      AllAccepted(limits, requests, c, k - 1);
      var shorter := requests + Repeated(c, k - 1);
      assert requests + Repeated(c, k) == shorter + [c];
      HistoryAppend(limits, shorter, c);
      OneAccepted(limits, History(limits, shorter), c, k - 1);
      assert History(limits, requests).log + Repeated(c, k) == History(limits, requests).log + Repeated(c, k - 1) + [c];
    }
  }

  lemma {:induction false} RepeatedCount(log: seq<Charge>, c: Charge, k: nat, scope: Scope, window: int, w: int)
    requires w > 0 && Against(c, scope)
    ensures InWindow(log + Repeated(c, k), scope, window, w) == InWindow(log, scope, window, w) + if Window(c.epoch, w) == window then k else 0
  {
    if k == 0 {
      assert log + Repeated(c, 0) == log;
    } else {
      RepeatedCount(log, c, k - 1, scope, window, w);
      assert log + Repeated(c, k) == (log + Repeated(c, k - 1)) + [c];
      InWindowAppend(log + Repeated(c, k - 1), c, scope, window, w);
    }
  }

  /** The smaller limit's worth of charges in a window, one elsewhere, and as many again. */
  function Detour(limits: Limits, a: Charge, b: Charge, c: Charge): seq<Charge> {
    var m := Min(limits.principalCalls, limits.tenantCalls);
    Repeated(a, m) + Repeated(b, 1) + Repeated(c, m)
  }

  lemma DetourAccepted(limits: Limits, a: Charge, b: Charge, c: Charge)
    requires limits.windowSeconds > 0 && limits.principalCalls >= 1 && limits.tenantCalls >= 1
    requires a.principal == b.principal == c.principal && a.tenant == b.tenant == c.tenant
    requires Window(a.epoch, limits.windowSeconds) == Window(c.epoch, limits.windowSeconds) != Window(b.epoch, limits.windowSeconds)
    ensures History(limits, Detour(limits, a, b, c)).log == Detour(limits, a, b, c)
  {
    var m := Min(limits.principalCalls, limits.tenantCalls);
    assert [] + Repeated(a, m) == Repeated(a, m);
    AllAccepted(limits, [], a, m);
    AllAccepted(limits, Repeated(a, m), b, 1);
    AllAccepted(limits, Repeated(a, m) + Repeated(b, 1), c, m);
  }

  lemma DetourCount(limits: Limits, a: Charge, b: Charge, c: Charge, scope: Scope)
    requires limits.windowSeconds > 0 && Against(a, scope) && Against(b, scope) && Against(c, scope)
    requires Window(a.epoch, limits.windowSeconds) == Window(c.epoch, limits.windowSeconds) != Window(b.epoch, limits.windowSeconds)
    ensures InWindow(Detour(limits, a, b, c), scope, Window(a.epoch, limits.windowSeconds), limits.windowSeconds)
         == 2 * Min(limits.principalCalls, limits.tenantCalls)
  {
    var w, m, window := limits.windowSeconds, Min(limits.principalCalls, limits.tenantCalls), Window(a.epoch, limits.windowSeconds);
    assert [] + Repeated(a, m) == Repeated(a, m);
    RepeatedCount([], a, m, scope, window, w);
    RepeatedCount(Repeated(a, m), b, 1, scope, window, w);
    RepeatedCount(Repeated(a, m) + Repeated(b, 1), c, m, scope, window, w);
  }

  lemma DetourFollows(limits: Limits, clock: seq<int>, i: nat, j: nat, k: nat, a: Charge, b: Charge, c: Charge)
    requires i < j < k < |clock| && a.epoch == clock[i] && b.epoch == clock[j] && c.epoch == clock[k]
    ensures FollowClock(Detour(limits, a, b, c), clock)
  {
    var m, requests := Min(limits.principalCalls, limits.tenantCalls), Detour(limits, a, b, c);
    var at := seq(|requests|, x requires 0 <= x < |requests| => if x < m then i else if x == m then j else k);
    assert MadeAt(requests, clock, at);
  }

  lemma ReturnOverspends(limits: Limits, clock: seq<int>, i: nat, j: nat, k: nat) returns (requests: seq<Charge>)
    requires limits.windowSeconds > 0 && limits.principalCalls >= 1 && limits.tenantCalls >= 1
    requires i < j < k < |clock|
    requires Window(clock[i], limits.windowSeconds) == Window(clock[k], limits.windowSeconds) != Window(clock[j], limits.windowSeconds)
    ensures FollowClock(requests, clock) && !Respected(limits, requests)
  {
    var a, b, c := Charge(0, 0, clock[i], 0, 0), Charge(0, 0, clock[j], 0, 0), Charge(0, 0, clock[k], 0, 0);
    var scope := if limits.principalCalls <= limits.tenantCalls then PrincipalScope(0) else TenantScope(0);
    requests := Detour(limits, a, b, c);
    DetourFollows(limits, clock, i, j, k, a, b, c);
    DetourAccepted(limits, a, b, c);
    DetourCount(limits, a, b, c, scope);
    assert !WindowOk(limits, History(limits, requests), scope, Window(a.epoch, limits.windowSeconds));
  }

  /**
   The quota is kept by all requests that follow a clock if and only if the clock never returns
   to a window it has left. Running backwards alone does no harm.
   */
  lemma QuotaHoldsExactly(limits: Limits, clock: seq<int>)
    requires limits.windowSeconds > 0 && limits.principalCalls >= 1 && limits.tenantCalls >= 1
    ensures NoReturn(clock, limits.windowSeconds) <==>
            forall requests :: FollowClock(requests, clock) ==> Respected(limits, requests)
  {
    var w := limits.windowSeconds;
    if NoReturn(clock, w) {
      forall requests | FollowClock(requests, clock) ensures Respected(limits, requests) {
        NoReturnRespects(limits, clock, requests);
      }
    } else {
      var i, j, k :| 0 <= i < j < k < |clock| && Window(clock[i], w) == Window(clock[k], w) && Window(clock[j], w) != Window(clock[i], w);
      var requests := ReturnOverspends(limits, clock, i, j, k);
    }
  }

  /**
   On a clock that never returns to a window, after any list of requests: every aligned window
   holds at most the scope's limit of charges, and any interval one window long at most twice that.
   */
  lemma QuotaHolds(limits: Limits, clock: seq<int>, requests: seq<Charge>, scope: Scope, window: int, a: int)
    requires limits.windowSeconds > 0 && NoReturn(clock, limits.windowSeconds) && FollowClock(requests, clock)
    ensures var log := History(limits, requests).log;
            && InWindow(log, scope, window, limits.windowSeconds) <= Limit(limits, scope)
            && Between(log, scope, a, a + limits.windowSeconds) <= 2 * Limit(limits, scope)
  {
    NoReturnRespects(limits, clock, requests);
    BookBounds(limits, History(limits, requests), scope, window, a);
  }

  /** A monotone clock never returns to a window. */
  lemma MonotoneNeverReturns(clock: seq<int>, w: int)
    requires w > 0 && forall i, j :: 0 <= i < j < |clock| ==> clock[i] <= clock[j]
    ensures NoReturn(clock, w)
  {
    forall i, j, k | 0 <= i < j < k < |clock| && Window(clock[i], w) == Window(clock[k], w)
      ensures Window(clock[j], w) == Window(clock[i], w)
    {
      WindowMonotone(clock[i], clock[j], w);
      WindowMonotone(clock[j], clock[k], w);
    }
  }

  // ---------------------------------------------------------------------------------------
  // The table in the database
  // ---------------------------------------------------------------------------------------

  class ProviderQuotas {
    var rows: map<Scope, Row>

    constructor (stored: map<Scope, Row>)
      ensures rows == stored
    {
      rows := stored;
    }

    /** Counts one call against both scopes, or raises and leaves the table as the transaction found it. */
    method ChargeProviderCall(limits: Limits, c: Charge) returns (accepted: bool)
      requires limits.windowSeconds > 0
      modifies this
      ensures accepted == WithinBudget(old(rows), limits, c.principal, c.tenant, c.epoch)
      ensures rows == if accepted then ChargedRows(old(rows), limits, c) else old(rows)
    {
      var saved := rows;
      var window := Window(c.epoch, limits.windowSeconds);
      var scopes := [PrincipalScope(c.principal), TenantScope(c.tenant)];
      for k := 0 to |scopes|
        invariant rows == Opened(saved, scopes[..k], window)
        invariant forall i :: 0 <= i < k ==> Spent(saved, scopes[i], window) < Limit(limits, scopes[i])
      {
        var scope := scopes[k];
        assert scopes[..k + 1] == scopes[..k] + [scope];
        assert Spent(rows, scope, window) == Spent(saved, scope, window);
        if scope !in rows {
          rows := rows[scope := Row(window, 0)];
        }
        if rows[scope].windowStart != window {
          rows := rows[scope := Row(window, 0)];
        }
        if rows[scope].used >= Limit(limits, scope) {
          rows := saved;
          return false;
        }
      }
      for k := 0 to |scopes|
        invariant forall i :: 0 <= i < |scopes| ==>
                    scopes[i] in rows &&
                    rows[scopes[i]] == Row(window, Spent(saved, scopes[i], window) + if i < k then 1 else 0)
        invariant rows.Keys == saved.Keys + {scopes[0], scopes[1]}
        invariant forall s :: s in saved && s != scopes[0] && s != scopes[1] ==> rows[s] == saved[s]
      {
        rows := rows[scopes[k] := rows[scopes[k]].(used := rows[scopes[k]].used + 1)];
      }
      accepted := true;
    }
  }

  /** The rows once the listed scopes have been brought into the window. */
  function Opened(rows: map<Scope, Row>, scopes: seq<Scope>, window: int): map<Scope, Row> {
    if scopes == [] then rows
    else
      var before := Opened(rows, scopes[..|scopes| - 1], window);
      var scope := scopes[|scopes| - 1];
      before[scope := Row(window, Spent(before, scope, window))]
  }
}
