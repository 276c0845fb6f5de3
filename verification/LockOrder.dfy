/**
 Waiting for identity locks never takes part in a deadlock. Each transaction is the list of
 locks it takes; PostgreSQL keeps them until it ends, and a lock that is already held is
 taken again without waiting.
 */
module LockOrder {
  import opened Domain
  import opened Texts
  import Quota

  datatype Lock = Identity(scope: Quota.Scope) | Row(table: string, id: nat)

  // ---------------------------------------------------------------------------------------
  // The order of `lock_identity`
  // ---------------------------------------------------------------------------------------

  /**
   Takes the advisory locks of an identity in the order of their texts. Whatever the names are,
   that is the principal's lock and then the tenant's.
   */
  method LockIdentity(principal: string, tenant: string) returns (taken: seq<string>)
    ensures taken == ["p:" + principal, "t:" + tenant]
    ensures TextLess(taken[0], taken[1])
  {
    var p, t := "p:" + principal, "t:" + tenant;
    assert p[0] == 'p' && t[0] == 't';
    var scopes := if TextLess(t, p) then [t, p] else [p, t];
    taken := [];
    for k := 0 to |scopes|
      invariant taken == scopes[..k]
    {
      taken := taken + [scopes[k]];
    }
  }

  /** Where a scope stands in that order. */
  function Rank(scope: Quota.Scope): nat { if scope.PrincipalScope? then 0 else 1 }

  function IdentityLocks(principal: Ident, tenant: Ident): seq<Lock> {
    [Identity(Quota.PrincipalScope(principal)), Identity(Quota.TenantScope(tenant))]
  }

  // ---------------------------------------------------------------------------------------
  // Transactions as lists of locks
  // ---------------------------------------------------------------------------------------

  datatype Transaction =
    | SubmitTransaction(principal: Ident, tenant: Ident)
    | ReplayTransaction(principal: Ident, tenant: Ident, source: nat)
    | EvaluateTransaction(principal: Ident, tenant: Ident, source: nat)
    | ClaimTransaction(principal: Ident, tenant: Ident, run: nat, finalized: seq<Lock>)
    | ChargeTransaction(principal: Ident, tenant: Ident, run: nat)
    | RowTransaction(rows: seq<Lock>)

  predicate OnlyRows(locks: seq<Lock>) {
    forall i :: 0 <= i < |locks| ==> locks[i].Row?
  }

  ghost predicate ValidTransaction(t: Transaction) {
    match t
    case ClaimTransaction(_, _, _, finalized) => OnlyRows(finalized)
    case RowTransaction(rows) => OnlyRows(rows)
    case _ => true
  }

  /**
   The locks of each transaction, in the order the code takes them. A charge locks its identity,
   then the run, and then its identity again inside `charge_provider_call`. Completions, repairs
   and dispatches take row locks only.
   */
  function Script(t: Transaction): seq<Lock> {
    match t
    case SubmitTransaction(p, u) => IdentityLocks(p, u)
    case ReplayTransaction(p, u, source) => IdentityLocks(p, u) + [Row("runs", source)]
    case EvaluateTransaction(p, u, source) => IdentityLocks(p, u) + [Row("runs", source)]
    case ClaimTransaction(p, u, run, finalized) => IdentityLocks(p, u) + [Row("runs", run)] + finalized
    case ChargeTransaction(p, u, run) => IdentityLocks(p, u) + [Row("runs", run)] + IdentityLocks(p, u)
    case RowTransaction(rows) => rows
  }

  /** A first-time identity lock comes before any row lock and after lower-ranked identity locks only. */
  ghost predicate DisciplinedAt(locks: seq<Lock>, k: nat)
    requires k < |locks|
  {
    locks[k].Identity? ==>
      || locks[k] in locks[..k]
      || forall i :: 0 <= i < k ==> locks[i].Identity? && Rank(locks[i].scope) < Rank(locks[k].scope)
  }

  ghost predicate Disciplined(locks: seq<Lock>) {
    forall k :: 0 <= k < |locks| ==> DisciplinedAt(locks, k)
  }

  /** Every transaction of the code follows the discipline. */
  lemma ScriptsAreDisciplined(t: Transaction)
    requires ValidTransaction(t)
    ensures Disciplined(Script(t))
  {
  }

  // ---------------------------------------------------------------------------------------
  // Sessions
  // ---------------------------------------------------------------------------------------

  /** A session has taken the first `taken` locks of its list. */
  datatype Session = Session(locks: seq<Lock>, taken: nat)

  predicate ValidSession(x: Session) { x.taken <= |x.locks| }

  predicate Has(x: Session, lock: Lock)
    requires ValidSession(x)
  {
    lock in x.locks[..x.taken]
  }

  ghost predicate AllValid(sessions: seq<Session>) {
    forall i :: 0 <= i < |sessions| ==> ValidSession(sessions[i]) && Disciplined(sessions[i].locks)
  }

  /** Session `i` wants a lock that session `j` has. */
  ghost predicate WaitsFor(sessions: seq<Session>, i: nat, j: nat)
    requires AllValid(sessions)
  {
    && i < |sessions| && j < |sessions| && i != j
    && sessions[i].taken < |sessions[i].locks|
    && Has(sessions[j], sessions[i].locks[sessions[i].taken])
  }

  ghost predicate Exclusive(sessions: seq<Session>)
    requires AllValid(sessions)
  {
    forall i, j, lock :: 0 <= i < |sessions| && 0 <= j < |sessions| && Has(sessions[i], lock) && Has(sessions[j], lock) ==> i == j
  }

  datatype Step = Start(t: Transaction) | Take(i: nat) | Finish(i: nat)

  /** A session starts, takes its next lock when nobody else has it, or ends and releases all. */
  ghost function Apply(sessions: seq<Session>, step: Step): seq<Session>
    requires AllValid(sessions)
  {
    match step
    case Start(t) => if ValidTransaction(t) then sessions + [Session(Script(t), 0)] else sessions
    case Take(i) =>
      if i < |sessions| && sessions[i].taken < |sessions[i].locks| && (forall j :: !WaitsFor(sessions, i, j))
      then sessions[i := sessions[i].(taken := sessions[i].taken + 1)] else sessions
    case Finish(i) => if i < |sessions| then sessions[i := Session([], 0)] else sessions
  }

  ghost predicate Inv(sessions: seq<Session>) { AllValid(sessions) && Exclusive(sessions) }

  lemma StepKeeps(sessions: seq<Session>, step: Step)
    requires Inv(sessions)
    ensures Inv(Apply(sessions, step))
  {
    var after := Apply(sessions, step);
    if step.Start? && ValidTransaction(step.t) {
      ScriptsAreDisciplined(step.t);
    }
    assert AllValid(after);
    forall i, j, lock | 0 <= i < |after| && 0 <= j < |after| && Has(after[i], lock) && Has(after[j], lock)
      ensures i == j
    {
      if step.Take? && after != sessions {
        TakenLock(sessions[step.i], lock);
        NoRival(sessions, step.i, i, lock);
        NoRival(sessions, step.i, j, lock);
      }
    }
  }

  /** A lock that a session need not wait for is one that no other session has. */
  lemma NoRival(sessions: seq<Session>, i: nat, j: nat, lock: Lock)
    requires AllValid(sessions) && i < |sessions| && j < |sessions|
    requires sessions[i].taken < |sessions[i].locks| && forall k :: !WaitsFor(sessions, i, k)
    ensures lock == sessions[i].locks[sessions[i].taken] && j != i ==> !Has(sessions[j], lock)
  {
    assert !WaitsFor(sessions, i, j);
  }

  lemma TakenLock(x: Session, lock: Lock)
    requires ValidSession(x) && x.taken < |x.locks|
    ensures Has(x.(taken := x.taken + 1), lock) <==> Has(x, lock) || lock == x.locks[x.taken]
  {
  }

  ghost function Execute(sessions: seq<Session>, steps: seq<Step>): (after: seq<Session>)
    requires Inv(sessions)
    ensures Inv(after)
    decreases |steps|
  {
    if steps == [] then sessions
    else
      StepKeeps(sessions, steps[0]);
      Execute(Apply(sessions, steps[0]), steps[1..])
  }

  // ---------------------------------------------------------------------------------------
  // No deadlock through an identity lock
  // ---------------------------------------------------------------------------------------

  /** Sessions that wait for each other in a circle. */
  ghost predicate Cycle(sessions: seq<Session>, ring: seq<nat>)
    requires AllValid(sessions)
  {
    ring != [] && forall k :: 0 <= k < |ring| ==> Link(sessions, ring, k)
  }

  ghost predicate Link(sessions: seq<Session>, ring: seq<nat>, k: nat)
    requires AllValid(sessions) && k < |ring|
  {
    WaitsFor(sessions, ring[k], ring[(k + 1) % |ring|])
  }

  function Wanted(x: Session): Lock
    requires ValidSession(x) && x.taken < |x.locks|
  {
    x.locks[x.taken]
  }

  /** Whoever waits for an identity lock has only identity locks of lower rank. */
  lemma WaiterHasLowerRanks(sessions: seq<Session>, i: nat, j: nat, lock: Lock)
    requires Inv(sessions) && WaitsFor(sessions, i, j) && Wanted(sessions[i]).Identity? && Has(sessions[i], lock)
    ensures lock.Identity? && Rank(lock.scope) < Rank(Wanted(sessions[i]).scope)
  {
    var x := sessions[i];
    assert DisciplinedAt(x.locks, x.taken);
    assert !Has(x, Wanted(x));
  }

  /** So whoever waits for it waits for an identity lock too, and for one of lower rank. */
  lemma PredecessorWaitsLower(sessions: seq<Session>, h: nat, i: nat, j: nat)
    requires Inv(sessions) && WaitsFor(sessions, h, i) && WaitsFor(sessions, i, j) && Wanted(sessions[i]).Identity?
    ensures Wanted(sessions[h]).Identity? && Rank(Wanted(sessions[h]).scope) < Rank(Wanted(sessions[i]).scope)
  {
    WaiterHasLowerRanks(sessions, i, j, Wanted(sessions[h]));
  }

  lemma StepBack(ring: seq<nat>, k: nat) returns (p: nat)
    requires k < |ring|
    ensures p < |ring| && (p + 1) % |ring| == k
  {
    p := if k == 0 then |ring| - 1 else k - 1;
  }

  /** Walking a circle backwards from an identity wait, ranks would fall for ever. */
  lemma {:induction false} NoIdentityInCycle(sessions: seq<Session>, ring: seq<nat>, k: nat)
    requires Inv(sessions) && Cycle(sessions, ring) && k < |ring| && Link(sessions, ring, k)
    ensures !Wanted(sessions[ring[k]]).Identity?
    decreases if Wanted(sessions[ring[k]]).Identity? then Rank(Wanted(sessions[ring[k]]).scope) else 0
  {
    if Wanted(sessions[ring[k]]).Identity? {
      var p := StepBack(ring, k);
      assert Link(sessions, ring, p);
      PredecessorWaitsLower(sessions, ring[p], ring[k], ring[(k + 1) % |ring|]);
      NoIdentityInCycle(sessions, ring, p);
    }
  }

  /** In every reachable state, no session that waits in a circle waits for an identity lock. */
  lemma IdentityWaitsNeverDeadlock(steps: seq<Step>, ring: seq<nat>, k: nat)
    requires Cycle(Execute([], steps), ring) && k < |ring|
    ensures Link(Execute([], steps), ring, k) && !Wanted(Execute([], steps)[ring[k]]).Identity?
  {
    NoIdentityInCycle(Execute([], steps), ring, k);
  }

  /**
   The second `lock_identity` of a charge comes while the run's row is locked, but it only asks
   for locks that its session has, so it waits for nobody.
   */
  lemma RetakingNeverWaits(steps: seq<Step>, i: nat, j: nat, principal: Ident, tenant: Ident, run: nat)
    requires i < |Execute([], steps)| && Execute([], steps)[i].locks == Script(ChargeTransaction(principal, tenant, run))
    requires 3 <= Execute([], steps)[i].taken < 5
    ensures Has(Execute([], steps)[i], Row("runs", run)) && Has(Execute([], steps)[i], Wanted(Execute([], steps)[i]))
    ensures !WaitsFor(Execute([], steps), i, j)
  {
    var x := Execute([], steps)[i];
    assert x.locks[..x.taken][2] == Row("runs", run);
    assert x.locks[..x.taken][x.taken - 3] == Wanted(x);
  }
}
