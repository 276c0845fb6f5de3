/** Merging a requested policy with the server's limits, before it enters the idempotency hash. */
module PolicyBuilder {
  import opened Domain
  import opened Retry
  import Routing

  /** The policy part of a request; the routing part holds the raw strategy and both candidate lists. */
  datatype PolicyRequest = PolicyRequest(
    maxAttempts: Option<int>,
    attemptTimeout: Option<real>,
    initialBackoff: Option<real>,
    maxBackoff: Option<real>,
    maxOutputTokens: Option<int>,
    model: Option<string>,
    instructions: Option<string>,
    routing: Routing.Request)

  datatype Limits = Limits(
    maxAttempts: int, attemptTimeout: real, initialBackoff: real, maxBackoff: real, maxOutputTokens: int)

  /** The stored snapshot; its nested routing record is kept beside the flat fields. */
  datatype Built = Built(fields: Snapshot, routing: Routing.Decision)

  // ---------------------------------------------------------------------------------------
  // Request validation
  // ---------------------------------------------------------------------------------------

  predicate IntWithin(v: Option<int>, low: int, high: int) {
    v.None? || low <= v.value <= high
  }

  predicate RealWithin(v: Option<real>, low: real, high: real) {
    v.None? || low <= v.value <= high
  }

  predicate TextWithin(v: Option<string>, high: int) {
    v.None? || 1 <= |v.value| <= high
  }

  predicate ProvidersOk(v: Option<seq<string>>) {
    v.None? || (1 <= |v.value| <= 2 && forall i :: 0 <= i < |v.value| ==> v.value[i] in ["deterministic", "openai"])
  }

  predicate InRange(q: PolicyRequest) {
    && IntWithin(q.maxAttempts, 1, 20)
    && RealWithin(q.attemptTimeout, 1.0, 600.0)
    && RealWithin(q.initialBackoff, 1.0, 3600.0)
    && RealWithin(q.maxBackoff, 1.0, 86400.0)
    && IntWithin(q.maxOutputTokens, 1, 8192)
    && TextWithin(q.model, 128)
    && TextWithin(q.instructions, 4096)
    && ProvidersOk(q.routing.candidates)
    && ProvidersOk(q.routing.providerOrder)
    && Routing.ChosenStrategy(q.routing).Ok?
  }

  // ---------------------------------------------------------------------------------------
  // What the merge has to produce
  // ---------------------------------------------------------------------------------------

  function Or<T>(v: Option<T>, fallback: T): T {
    if v.Some? then v.value else fallback
  }

  predicate BackoffsClash(q: PolicyRequest, limits: Limits) {
    Or(q.maxBackoff, limits.maxBackoff) < Or(q.initialBackoff, limits.initialBackoff)
  }

  predicate Usable(limits: Limits) {
    limits.maxAttempts >= 1 && limits.attemptTimeout > 0.0 && limits.maxBackoff > 0.0
  }

  predicate RoutingFails(q: Routing.Request, catalog: Routing.Catalog, available: set<string>) {
    || Routing.ChosenStrategy(q).Err?
    || !Routing.Acceptable(catalog, Routing.ChosenCandidates(q))
    || Routing.Available(Routing.ChosenCandidates(q), available) == []
  }

  predicate Rejected(q: PolicyRequest, limits: Limits, catalog: Routing.Catalog, available: set<string>) {
    !InRange(q) || BackoffsClash(q, limits) || RoutingFails(q.routing, catalog, available) || !Usable(limits)
  }

  function ClampedInitial(q: PolicyRequest, limits: Limits): real {
    MinReal(limits.maxBackoff, MaxReal(1.0, MaxReal(limits.initialBackoff, Or(q.initialBackoff, limits.initialBackoff))))
  }

  function ClampedMaximum(q: PolicyRequest, limits: Limits): real {
    MaxReal(ClampedInitial(q, limits), MinReal(Or(q.maxBackoff, limits.maxBackoff), limits.maxBackoff))
  }

  function Clamped(q: PolicyRequest, limits: Limits, order: seq<string>): RetryPolicy {
    RetryPolicy(
      Min(ATTEMPT_CAP, Min(Or(q.maxAttempts, limits.maxAttempts), limits.maxAttempts)),
      MinReal(Or(q.attemptTimeout, limits.attemptTimeout), limits.attemptTimeout),
      ClampedInitial(q, limits),
      ClampedMaximum(q, limits),
      order)
  }

  /** The fields that pass through. */
  function Extras(q: PolicyRequest, limits: Limits): Snapshot {
    var tokens := map[MaxOutputTokens := IntValue(Min(Or(q.maxOutputTokens, limits.maxOutputTokens), limits.maxOutputTokens))];
    PutIf(PutIf(tokens, Model, AsText(q.model)), Instructions, AsText(q.instructions))
  }

  function AsText(v: Option<string>): Option<Value> {
    if v.Some? then Some(TextValue(v.value)) else None
  }

  function AsWhole(v: Option<int>): Option<Value> {
    if v.Some? then Some(IntValue(v.value)) else None
  }

  function AsNumber(v: Option<real>): Option<Value> {
    if v.Some? then Some(FloatValue(Finite(v.value))) else None
  }

  function PutIf(snapshot: Snapshot, field: Field, v: Option<Value>): Snapshot {
    if v.Some? then snapshot[field := v.value] else snapshot
  }

  ghost predicate IsBuilt(
    q: PolicyRequest, limits: Limits, catalog: Routing.Catalog, available: set<string>, built: Built)
  {
    && Routing.IsDecision(catalog, q.routing, available, built.routing)
    && built.fields == Extras(q, limits) + AsSnapshot(Clamped(q, limits, built.routing.order))
  }

  // ---------------------------------------------------------------------------------------
  // The merge
  // ---------------------------------------------------------------------------------------

  function Find(snapshot: Snapshot, field: Field): Option<Value> {
    if field in snapshot then Some(snapshot[field]) else None
  }

  /** What the validated request says about a field; unset fields are absent. */
  function Requested(q: PolicyRequest, field: Field): Option<Value> {
    match field
    case MaxAttempts => AsWhole(q.maxAttempts)
    case AttemptTimeout => AsNumber(q.attemptTimeout)
    case InitialBackoff => AsNumber(q.initialBackoff)
    case MaxBackoff => AsNumber(q.maxBackoff)
    case MaxOutputTokens => AsWhole(q.maxOutputTokens)
    case Model => AsText(q.model)
    case Instructions => AsText(q.instructions)
    case _ => None
  }

  method Dump(q: PolicyRequest) returns (snapshot: Snapshot)
    ensures forall field :: Find(snapshot, field) == Requested(q, field)
  {
    snapshot := PutIf(map[], MaxAttempts, AsWhole(q.maxAttempts));
    snapshot := PutIf(snapshot, AttemptTimeout, AsNumber(q.attemptTimeout));
    snapshot := PutIf(snapshot, InitialBackoff, AsNumber(q.initialBackoff));
    snapshot := PutIf(snapshot, MaxBackoff, AsNumber(q.maxBackoff));
    snapshot := PutIf(snapshot, MaxOutputTokens, AsWhole(q.maxOutputTokens));
    snapshot := PutIf(snapshot, Model, AsText(q.model));
    snapshot := PutIf(snapshot, Instructions, AsText(q.instructions));
  }

  /** The dictionary with the server's values for what the request leaves open. */
  function Defaulted(q: PolicyRequest, limits: Limits, field: Field): Option<Value> {
    match field
    case MaxAttempts => Some(IntValue(Or(q.maxAttempts, limits.maxAttempts)))
    case AttemptTimeout => Some(FloatValue(Finite(Or(q.attemptTimeout, limits.attemptTimeout))))
    case InitialBackoff => Some(FloatValue(Finite(Or(q.initialBackoff, limits.initialBackoff))))
    case MaxBackoff => Some(FloatValue(Finite(Or(q.maxBackoff, limits.maxBackoff))))
    case _ => Requested(q, field)
  }

  method SetDefault(snapshot: Snapshot, field: Field, value: Value) returns (r: Snapshot)
    ensures forall other :: Find(r, other) == if other == field then Some(Or(Find(snapshot, field), value)) else Find(snapshot, other)
  {
    r := snapshot;
    if field !in r {
      r := r[field := value];
    }
  }

  method WithDefaults(q: PolicyRequest, limits: Limits) returns (snapshot: Snapshot)
    ensures forall field :: Find(snapshot, field) == Defaulted(q, limits, field)
  {
    snapshot := Dump(q);
    snapshot := SetDefault(snapshot, MaxAttempts, IntValue(limits.maxAttempts));
    snapshot := SetDefault(snapshot, AttemptTimeout, FloatValue(Finite(limits.attemptTimeout)));
    snapshot := SetDefault(snapshot, InitialBackoff, FloatValue(Finite(limits.initialBackoff)));
    snapshot := SetDefault(snapshot, MaxBackoff, FloatValue(Finite(limits.maxBackoff)));
  }

  /** The dictionary after clamping and before routing. */
  function ClampedField(q: PolicyRequest, limits: Limits, field: Field): Option<Value> {
    var p := Clamped(q, limits, []);
    match field
    case MaxAttempts => Some(IntValue(Min(Or(q.maxAttempts, limits.maxAttempts), limits.maxAttempts)))
    case AttemptTimeout => Some(FloatValue(Finite(p.attemptTimeout)))
    case InitialBackoff => Some(FloatValue(Finite(p.initialBackoff)))
    case MaxBackoff => Some(FloatValue(Finite(p.maxBackoff)))
    case MaxOutputTokens => Find(Extras(q, limits), MaxOutputTokens)
    case _ => Requested(q, field)
  }

  method ClampFields(q: PolicyRequest, limits: Limits) returns (snapshot: Snapshot)
    ensures forall field :: Find(snapshot, field) == ClampedField(q, limits, field)
  {
    snapshot := WithDefaults(q, limits);
    assert Find(snapshot, MaxAttempts).Some? && Find(snapshot, AttemptTimeout).Some?;
    assert Find(snapshot, InitialBackoff).Some? && Find(snapshot, MaxBackoff).Some?;
    ghost var before := snapshot;
    assert Find(before, MaxOutputTokens) == AsWhole(q.maxOutputTokens);
    snapshot := snapshot[MaxAttempts := IntValue(Min(snapshot[MaxAttempts].i, limits.maxAttempts))];
    snapshot := snapshot[AttemptTimeout := FloatValue(Finite(MinReal(snapshot[AttemptTimeout].f.r, limits.attemptTimeout)))];
    var initial := MaxReal(1.0, MaxReal(limits.initialBackoff, snapshot[InitialBackoff].f.r));
    snapshot := snapshot[InitialBackoff := FloatValue(Finite(MinReal(limits.maxBackoff, initial)))];
    var maximum := MinReal(snapshot[MaxBackoff].f.r, limits.maxBackoff);
    snapshot := snapshot[MaxBackoff := FloatValue(Finite(MaxReal(snapshot[InitialBackoff].f.r, maximum)))];
    var tokens := Get(snapshot, MaxOutputTokens, IntValue(limits.maxOutputTokens));
    snapshot := snapshot[MaxOutputTokens := IntValue(Min(tokens.i, limits.maxOutputTokens))];
    forall field ensures Find(snapshot, field) == ClampedField(q, limits, field) {
      assert Find(before, field) == Defaulted(q, limits, field);
    }
  }

  /**
   `build_policy_snapshot`: rejected exactly for the listed reasons; otherwise the pass-through
   fields overlaid with the clamped policy and the resolved routing.
   */
  method BuildPolicySnapshot(q: PolicyRequest, limits: Limits, catalog: Routing.Catalog, available: Option<set<string>>)
    returns (r: Result<Built>)
    requires Routing.Keyed(catalog)
    ensures r.Err? <==> Rejected(q, limits, catalog, Routing.AvailableSet(catalog, available))
    ensures r.Ok? ==> IsBuilt(q, limits, catalog, Routing.AvailableSet(catalog, available), r.value)
  {
    if !InRange(q) {
      return Err;
    }
    if BackoffsClash(q, limits) {
      return Err;
    }
    var snapshot := ClampFields(q, limits);
    var decision := Routing.ResolveRouting(catalog, q.routing, available);
    if decision.Err? {
      return Err;
    }
    OrderIsNamed(catalog, q.routing, Routing.AvailableSet(catalog, available), decision.value);
    var fields := ParseAndOverlay(q, limits, snapshot, decision.value.order);
    if fields.Err? {
      return Err;
    }
    return Ok(Built(fields.value, decision.value));
  }

  method ParseAndOverlay(q: PolicyRequest, limits: Limits, clamped: Snapshot, order: seq<string>) returns (r: Result<Snapshot>)
    requires InRange(q) && order != [] && forall i :: 0 <= i < |order| ==> !Blank(order[i])
    requires forall field :: Find(clamped, field) == ClampedField(q, limits, field)
    ensures r.Ok? <==> Usable(limits)
    ensures r.Ok? ==> r.value == Extras(q, limits) + AsSnapshot(Clamped(q, limits, order))
  {
    var snapshot := clamped[ProviderOrder := TextList(order)];
    var policy := FromSnapshot(snapshot);
    ParsedIsClamped(q, limits, clamped, order);
    if policy.Err? {
      return Err;
    }
    OverlayIsExtras(q, limits, clamped, order);
    return Ok(snapshot + AsSnapshot(policy.value));
  }

  lemma ParsedIsClamped(q: PolicyRequest, limits: Limits, clamped: Snapshot, order: seq<string>)
    requires InRange(q) && order != [] && forall i :: 0 <= i < |order| ==> !Blank(order[i])
    requires forall field :: Find(clamped, field) == ClampedField(q, limits, field)
    ensures FromSnapshot(clamped[ProviderOrder := TextList(order)]) == if Usable(limits) then Ok(Clamped(q, limits, order)) else Err
  {
    var p := Clamped(q, limits, order);
    var snapshot := clamped[ProviderOrder := TextList(order)];
    assert Find(clamped, MaxAttempts).Some? && Find(clamped, AttemptTimeout).Some?;
    assert Find(clamped, InitialBackoff).Some? && Find(clamped, MaxBackoff).Some?;
    assert PositiveInt(snapshot[MaxAttempts]).Ok? <==> limits.maxAttempts >= 1;
    assert PositiveFloat(snapshot[AttemptTimeout]).Ok? <==> limits.attemptTimeout > 0.0;
    assert PositiveFloat(snapshot[InitialBackoff]).Ok? <==> limits.maxBackoff > 0.0;
  }

  /** What the parsed policy does not overwrite are the pass-through fields. */
  lemma OverlayIsExtras(q: PolicyRequest, limits: Limits, clamped: Snapshot, order: seq<string>)
    requires forall field :: Find(clamped, field) == ClampedField(q, limits, field)
    ensures var p := AsSnapshot(Clamped(q, limits, order));
            clamped[ProviderOrder := TextList(order)] + p == Extras(q, limits) + p
  {
    var p := AsSnapshot(Clamped(q, limits, order));
    var left, right := clamped[ProviderOrder := TextList(order)] + p, Extras(q, limits) + p;
    forall field ensures Find(left, field) == Find(right, field) {
      assert Find(clamped, field) == ClampedField(q, limits, field);
    }
    assert forall field :: field in left <==> Find(left, field).Some?;
    assert forall field :: field in right <==> Find(right, field).Some?;
  }

  /** Every provider of a decision was named by the request, so it is not blank. */
  lemma OrderIsNamed(catalog: Routing.Catalog, q: Routing.Request, available: set<string>, d: Routing.Decision)
    requires Routing.IsDecision(catalog, q, available, d) && Routing.Acceptable(catalog, Routing.ChosenCandidates(q))
    ensures d.order != [] && forall i :: 0 <= i < |d.order| ==> !Blank(d.order[i])
  {
    var names := Routing.ChosenCandidates(q);
    Routing.MembersPermute(d.order, Routing.Available(names, available));
    forall i | 0 <= i < |d.order| ensures !Blank(d.order[i]) {
      assert d.order[i] in d.order;
      assert d.order[i] in names;
    }
  }

  // ---------------------------------------------------------------------------------------
  // What callers rely on
  // ---------------------------------------------------------------------------------------

  /** The stored fields parse back to the clamped policy, and clamping keeps the server's bounds. */
  lemma StoredPolicyIsWithinLimits(
    q: PolicyRequest, limits: Limits, catalog: Routing.Catalog, available: set<string>, built: Built)
    requires !Rejected(q, limits, catalog, available) && IsBuilt(q, limits, catalog, available, built)
    ensures FromSnapshot(built.fields).Ok?
    ensures var p := FromSnapshot(built.fields).value;
            && p.providerOrder == built.routing.order
            && 1 <= p.maxAttempts <= limits.maxAttempts && (q.maxAttempts.Some? ==> p.maxAttempts <= q.maxAttempts.value)
            && 0.0 < p.attemptTimeout <= limits.attemptTimeout
            && (q.attemptTimeout.Some? ==> p.attemptTimeout <= q.attemptTimeout.value)
            && p.initialBackoff <= p.maxBackoff <= limits.maxBackoff
            && (limits.initialBackoff <= p.initialBackoff <==> limits.initialBackoff <= limits.maxBackoff)
            && (q.initialBackoff.Some? && q.initialBackoff.value <= limits.maxBackoff ==> q.initialBackoff.value <= p.initialBackoff)
  {
    ParsesBack(q, limits, catalog, available, built);
  }

  lemma ParsesBack(q: PolicyRequest, limits: Limits, catalog: Routing.Catalog, available: set<string>, built: Built)
    requires !Rejected(q, limits, catalog, available) && IsBuilt(q, limits, catalog, available, built)
    ensures FromSnapshot(built.fields) == Ok(Clamped(q, limits, built.routing.order))
  {
    var p := Clamped(q, limits, built.routing.order);
    OrderIsNamed(catalog, q.routing, available, built.routing);
    assert Valid(p);
    SnapshotRoundTrip(p, Extras(q, limits));
  }

  /** The smallest of some numbers, and one of them. */
  ghost predicate IsLeastInt(x: int, candidates: set<int>) {
    x in candidates && forall y :: y in candidates ==> x <= y
  }

  ghost predicate IsLeast(x: real, candidates: set<real>) {
    x in candidates && forall y :: y in candidates ==> x <= y
  }

  ghost predicate IsGreatest(x: real, candidates: set<real>) {
    x in candidates && forall y :: y in candidates ==> x >= y
  }

  function Set<T>(v: Option<T>): set<T> {
    if v.Some? then {v.value} else {}
  }

  ghost predicate IsExactlyClamped(q: PolicyRequest, limits: Limits, p: RetryPolicy) {
    && IsLeastInt(p.maxAttempts, {20, limits.maxAttempts} + Set(q.maxAttempts))
    && IsLeast(p.attemptTimeout, {limits.attemptTimeout} + Set(q.attemptTimeout))
    && (exists low :: IsGreatest(low, {1.0, limits.initialBackoff} + Set(q.initialBackoff)) && IsLeast(p.initialBackoff, {low, limits.maxBackoff}))
    && (exists high :: IsLeast(high, {limits.maxBackoff} + Set(q.maxBackoff)) && IsGreatest(p.maxBackoff, {high, p.initialBackoff}))
  }

  lemma ClampsExactly(q: PolicyRequest, limits: Limits, order: seq<string>)
    ensures IsExactlyClamped(q, limits, Clamped(q, limits, order))
  {
    var base := Or(q.initialBackoff, limits.initialBackoff);
    assert IsGreatest(MaxReal(1.0, MaxReal(limits.initialBackoff, base)), {1.0, limits.initialBackoff} + Set(q.initialBackoff));
    assert IsLeast(MinReal(Or(q.maxBackoff, limits.maxBackoff), limits.maxBackoff), {limits.maxBackoff} + Set(q.maxBackoff));
  }

  lemma PassesThrough(q: PolicyRequest, limits: Limits, p: RetryPolicy)
    ensures var fields := Extras(q, limits) + AsSnapshot(p);
            && MaxOutputTokens in fields && fields[MaxOutputTokens].IntValue?
            && IsLeastInt(fields[MaxOutputTokens].i, {limits.maxOutputTokens} + Set(q.maxOutputTokens))
            && Find(fields, Model) == AsText(q.model) && Find(fields, Instructions) == AsText(q.instructions)
            && WorkKindName !in fields && forall name :: OtherField(name) !in fields
  {
  }

  /**
   What exactly is stored. Attempts, timeout and output tokens are the smallest of the request's
   value and the server's; the initial backoff is the largest of one second, the server's base and the
   request's, unless the server's maximum is smaller; the maximum is the smaller of the request's
   and the server's, unless the initial one is larger. Model and instructions pass through, other
   fields do not, and nothing is stored that could pose as a work kind.
   */
  lemma StoredPolicyExactly(
    q: PolicyRequest, limits: Limits, catalog: Routing.Catalog, available: set<string>, built: Built)
    requires !Rejected(q, limits, catalog, available) && IsBuilt(q, limits, catalog, available, built)
    ensures FromSnapshot(built.fields).Ok? && IsExactlyClamped(q, limits, FromSnapshot(built.fields).value)
    ensures MaxOutputTokens in built.fields && built.fields[MaxOutputTokens].IntValue?
    ensures IsLeastInt(built.fields[MaxOutputTokens].i, {limits.maxOutputTokens} + Set(q.maxOutputTokens))
    ensures Find(built.fields, Model) == AsText(q.model) && Find(built.fields, Instructions) == AsText(q.instructions)
    ensures WorkKindName !in built.fields && forall name :: OtherField(name) !in built.fields
  {
    var p := Clamped(q, limits, built.routing.order);
    ParsesBack(q, limits, catalog, available, built);
    ClampsExactly(q, limits, built.routing.order);
    PassesThrough(q, limits, p);
  }

  /**
   A base above the server's maximum is undercut: with a base of 5 and a maximum of 2 seconds, a
   request for 1 to 10 seconds is accepted and stores an initial backoff of 2.
   */
  lemma BaseCanBeUndercut(catalog: Routing.Catalog, available: set<string>)
    requires "deterministic" in catalog && "deterministic" in available
    ensures var q := PolicyRequest(None, None, Some(1.0), Some(10.0), None, None, None, Routing.Request(None, None, None));
            var limits := Limits(3, 60.0, 5.0, 2.0, 2048);
            && !Rejected(q, limits, catalog, available)
            && forall built :: IsBuilt(q, limits, catalog, available, built) ==>
                 FromSnapshot(built.fields).Ok? && FromSnapshot(built.fields).value.initialBackoff == 2.0 < limits.initialBackoff
  {
    var q := PolicyRequest(None, None, Some(1.0), Some(10.0), None, None, None, Routing.Request(None, None, None));
    var limits := Limits(3, 60.0, 5.0, 2.0, 2048);
    var names := Routing.ChosenCandidates(q.routing);
    assert names == ["deterministic"] && names[0][0] == 'd' && !IsSpace('d');
    assert "deterministic" in Routing.Available(names, available);
    forall built | IsBuilt(q, limits, catalog, available, built)
      ensures FromSnapshot(built.fields).Ok? && FromSnapshot(built.fields).value.initialBackoff == 2.0
    {
      StoredPolicyIsWithinLimits(q, limits, catalog, available, built);
      SnapshotRoundTrip(Clamped(q, limits, built.routing.order), Extras(q, limits));
    }
  }

  /** Two requests that differ only in the order in which they list providers. */
  ghost predicate Permuted(q: PolicyRequest, q': PolicyRequest) {
    && q' == q.(routing := q'.routing) && q.routing.strategy == q'.routing.strategy
    && SameNames(q.routing.candidates, q'.routing.candidates) && SameNames(q.routing.providerOrder, q'.routing.providerOrder)
  }

  ghost predicate SameNames(v: Option<seq<string>>, v': Option<seq<string>>) {
    (v.None? && v'.None?) || (v.Some? && v'.Some? && multiset(v.value) == multiset(v'.value))
  }

  lemma ProvidersPermute(v: Option<seq<string>>, v': Option<seq<string>>)
    requires SameNames(v, v') && ProvidersOk(v)
    ensures ProvidersOk(v')
  {
    if v.Some? {
      Routing.MembersPermute(v'.value, v.value);
      forall i | 0 <= i < |v'.value| ensures v'.value[i] in ["deterministic", "openai"] {
        assert v'.value[i] in v'.value && v'.value[i] in v.value;
      }
    }
  }

  lemma AcceptedOneWay(q: PolicyRequest, q': PolicyRequest, limits: Limits, catalog: Routing.Catalog, available: set<string>)
    requires Permuted(q, q') && !Rejected(q, limits, catalog, available)
    ensures !Rejected(q', limits, catalog, available)
  {
    ProvidersPermute(q.routing.candidates, q'.routing.candidates);
    ProvidersPermute(q.routing.providerOrder, q'.routing.providerOrder);
    Routing.AcceptancePermutes(catalog, Routing.ChosenCandidates(q.routing), Routing.ChosenCandidates(q'.routing), available);
  }

  /** Listing the providers in another order is rejected in the same cases and stores the same snapshot. */
  lemma SnapshotIsCanonical(q: PolicyRequest, q': PolicyRequest, limits: Limits, catalog: Routing.Catalog, available: set<string>)
    requires Routing.Keyed(catalog) && Permuted(q, q')
    ensures Rejected(q, limits, catalog, available) <==> Rejected(q', limits, catalog, available)
    ensures forall built, built' ::
              IsBuilt(q, limits, catalog, available, built) && IsBuilt(q', limits, catalog, available, built') ==> built == built'
  {
    if !Rejected(q, limits, catalog, available) {
      AcceptedOneWay(q, q', limits, catalog, available);
    }
    if !Rejected(q', limits, catalog, available) {
      AcceptedOneWay(q', q, limits, catalog, available);
    }
    forall built, built' | IsBuilt(q, limits, catalog, available, built) && IsBuilt(q', limits, catalog, available, built')
      ensures built == built'
    {
      Routing.DecisionIsCanonical(catalog, q.routing, q'.routing, available, built.routing, built'.routing);
    }
  }
}
