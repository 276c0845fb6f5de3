/** Capacity and admission in terms of the runs themselves: which runs a limit is about, and when a request is turned away. */
module Capacity {
  import opened Domain
  import opened Tables
  import opened Transitions
  import opened Protocol
  import opened Guarantees
  import Quota

  /** The runs of a principal, and of a tenant, that are executing. */
  function RunningOf(entries: seq<Entry>, principal: Ident): set<nat> {
    set r: nat | r < |entries| && entries[r].accepted.principal == principal && entries[r].run.status == Running
  }

  function RunningFor(entries: seq<Entry>, client: Ident): set<nat> {
    set r: nat | r < |entries| && entries[r].accepted.client == client && entries[r].run.status == Running
  }

  /** The runs of a principal, and of a tenant, that have not ended. */
  function ActiveOf(entries: seq<Entry>, principal: Ident): set<nat> {
    set r: nat | r < |entries| && entries[r].accepted.principal == principal && !Terminal(entries[r].run.status)
  }

  function ActiveFor(entries: seq<Entry>, client: Ident): set<nat> {
    set r: nat | r < |entries| && entries[r].accepted.client == client && !Terminal(entries[r].run.status)
  }

  lemma AddsOne(shorter: set<nat>, longer: set<nat>, n: nat)
    requires forall r :: r in shorter ==> r < n
    requires forall r :: r in longer ==> r <= n
    requires forall r: nat :: r < n ==> (r in longer <==> r in shorter)
    ensures |longer| == |shorter| + if n in longer then 1 else 0
  {
    assert longer == if n in longer then shorter + {n} else shorter;
  }

  lemma {:induction false} RunningOfCounts(entries: seq<Entry>, principal: Ident)
    ensures RunningIn(entries, Quota.PrincipalScope(principal)) == |RunningOf(entries, principal)|
  {
    if entries != [] {
      var n := |entries| - 1;
      RunningOfCounts(entries[..n], principal);
      AddsOne(RunningOf(entries[..n], principal), RunningOf(entries, principal), n);
    }
  }

  lemma {:induction false} RunningForCounts(entries: seq<Entry>, client: Ident)
    ensures RunningIn(entries, Quota.TenantScope(client)) == |RunningFor(entries, client)|
  {
    if entries != [] {
      var n := |entries| - 1;
      RunningForCounts(entries[..n], client);
      AddsOne(RunningFor(entries[..n], client), RunningFor(entries, client), n);
    }
  }

  lemma {:induction false} ActiveOfCounts(entries: seq<Entry>, principal: Ident)
    ensures ActiveIn(entries, Quota.PrincipalScope(principal)) == |ActiveOf(entries, principal)|
  {
    if entries != [] {
      var n := |entries| - 1;
      ActiveOfCounts(entries[..n], principal);
      AddsOne(ActiveOf(entries[..n], principal), ActiveOf(entries, principal), n);
    }
  }

  lemma {:induction false} ActiveForCounts(entries: seq<Entry>, client: Ident)
    ensures ActiveIn(entries, Quota.TenantScope(client)) == |ActiveFor(entries, client)|
  {
    if entries != [] {
      var n := |entries| - 1;
      ActiveForCounts(entries[..n], client);
      AddsOne(ActiveFor(entries[..n], client), ActiveFor(entries, client), n);
    }
  }

  /** In every reachable state the runs of an identity that execute, or have not ended, are no more than it may have. */
  lemma RunsWithinCapacity(c: Config, steps: seq<Step>, id: Ident)
    requires ValidConfig(c)
    ensures var entries := After(c, steps).entries;
            && |RunningOf(entries, id)| <= c.principalRunning && |RunningFor(entries, id)| <= c.tenantRunning
            && |ActiveOf(entries, id)| <= c.principalActive && |ActiveFor(entries, id)| <= c.tenantActive
  {
    var entries := After(c, steps).entries;
    CapacityHolds(c, steps, Quota.PrincipalScope(id));
    CapacityHolds(c, steps, Quota.TenantScope(id));
    RunningOfCounts(entries, id);
    RunningForCounts(entries, id);
    ActiveOfCounts(entries, id);
    ActiveForCounts(entries, id);
  }

  /** There is room for one more run of the identity, and its present window has a call left. */
  ghost predicate RoomFor(c: Config, s: State, principal: Ident, client: Ident)
    requires c.limits.windowSeconds > 0
  {
    && |ActiveOf(s.entries, principal)| < c.principalActive && |ActiveFor(s.entries, client)| < c.tenantActive
    && QuotaLeft(c, s, principal, client, s.clock.Floor)
  }

  /** With counts and budget as they are, a request is admitted exactly if there is room for it. */
  lemma AdmissionIsExact(c: Config, steps: seq<Step>, principal: Ident, client: Ident, seen: Observed)
    requires ValidConfig(c) && seen.now == After(c, steps).clock
    requires seen.principal == ActiveIn(After(c, steps).entries, Quota.PrincipalScope(principal))
    requires seen.tenant == ActiveIn(After(c, steps).entries, Quota.TenantScope(client))
    ensures Admitted(c, After(c, steps), principal, client, seen) <==> RoomFor(c, After(c, steps), principal, client)
  {
    Reached(c, steps);
    var s := After(c, steps);
    ActiveOfCounts(s.entries, principal);
    ActiveForCounts(s.entries, client);
    var charge := Quota.Charge(principal, client, s.clock.Floor, 0, 0);
    Quota.OrderedIsCurrent(c.limits, s.ledger.log, charge);
    Quota.BudgetCheckIsExact(c.limits, s.ledger, charge);
  }
}
