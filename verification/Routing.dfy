/** Resolving a provider order from trusted metrics: a deterministic ranking of the candidates. */
module Routing {
  import opened Domain
  import opened Texts
  import Retry

  datatype Strategy = LowestLatency | LowestCost | QualityFirst | Balanced

  datatype Metrics = Metrics(
    provider: string, medianLatencyMs: int, costMicrousd: int, passRate: real, availability: real)

  type Catalog = map<string, Metrics>

  /** Each provider is listed under its own name. */
  ghost predicate Keyed(catalog: Catalog) {
    forall name :: name in catalog ==> catalog[name].provider == name
  }

  // ---------------------------------------------------------------------------------------
  // Sort keys
  // ---------------------------------------------------------------------------------------

  /** `round(x, 6)`: to the nearest millionth, ties to the even one. */
  function Round6(x: real): real {
    var scaled := x * 1000000.0;
    var low := scaled.Floor;
    var rest := scaled - low as real;
    var nearest := if rest < 0.5 || (rest == 0.5 && low % 2 == 0) then low else low + 1;
    nearest as real / 1000000.0
  }

  function BalancedScore(m: Metrics): real {
    Round6((m.costMicrousd as real / 2000.0) * 0.35 + (m.medianLatencyMs as real / 1000.0) * 0.30
           + (1.0 - m.passRate) * 0.25 + (1.0 - m.availability) * 0.10)
  }

  /** A sort key: numbers first, the provider's name last. */
  datatype SortKey = SortKey(numbers: seq<real>, name: string)

  function KeyFor(m: Metrics, strategy: Strategy): SortKey {
    var latency, cost := m.medianLatencyMs as real, m.costMicrousd as real;
    match strategy
    case LowestLatency => SortKey([latency, cost, -m.passRate, -m.availability], m.provider)
    case LowestCost => SortKey([cost, latency, -m.passRate, -m.availability], m.provider)
    case QualityFirst => SortKey([-m.passRate, -m.availability, latency, cost], m.provider)
    case Balanced => SortKey([BalancedScore(m)], m.provider)
  }

  function Score(m: Metrics, strategy: Strategy): real {
    match strategy
    case LowestLatency => m.medianLatencyMs as real
    case LowestCost => m.costMicrousd as real
    case QualityFirst => Round6(1.0 - m.passRate)
    case Balanced => BalancedScore(m)
  }

  /** Python compares tuples element by element. */
  predicate KeyLess(a: SortKey, b: SortKey)
    decreases |a.numbers|
  {
    if a.numbers == [] || b.numbers == [] then |a.numbers| < |b.numbers| || (a.numbers == b.numbers && TextLess(a.name, b.name))
    else a.numbers[0] < b.numbers[0] ||
         (a.numbers[0] == b.numbers[0] && KeyLess(SortKey(a.numbers[1..], a.name), SortKey(b.numbers[1..], b.name)))
  }

  function Tail(a: SortKey): SortKey
    requires a.numbers != []
  {
    SortKey(a.numbers[1..], a.name)
  }

  lemma {:induction false} KeyIrreflexive(a: SortKey)
    ensures !KeyLess(a, a)
    decreases |a.numbers|
  {
    TextIrreflexive(a.name);
    if a.numbers != [] {
      KeyIrreflexive(Tail(a));
    }
  }

  lemma {:induction false} KeyTransitive(a: SortKey, b: SortKey, c: SortKey)
    requires KeyLess(a, b) && KeyLess(b, c)
    ensures KeyLess(a, c)
    decreases |a.numbers|
  {
    if a.numbers == [] {
      if b.numbers == [] == c.numbers {
        TextTransitive(a.name, b.name, c.name);
      }
    } else if a.numbers[0] == b.numbers[0] == c.numbers[0] {
      KeyTransitive(Tail(a), Tail(b), Tail(c));
    }
  }

  lemma {:induction false} KeyTotal(a: SortKey, b: SortKey)
    ensures a.name == b.name || KeyLess(a, b) || KeyLess(b, a)
    decreases |a.numbers|
  {
    if a.numbers == [] || b.numbers == [] {
      TextTotal(a.name, b.name);
    } else if a.numbers[0] == b.numbers[0] {
      KeyTotal(Tail(a), Tail(b));
    }
  }

  // ---------------------------------------------------------------------------------------
  // The order of candidates
  // ---------------------------------------------------------------------------------------

  /** The sort key of every provider; each key carries its provider's name. */
  type Keys = map<string, SortKey>

  ghost predicate Named(keys: Keys) {
    forall name :: name in keys ==> keys[name].name == name
  }

  ghost predicate Known(keys: Keys, names: seq<string>) {
    forall i :: 0 <= i < |names| ==> names[i] in keys
  }

  /** Strictly increasing sort keys. */
  ghost predicate Ordered(keys: Keys, names: seq<string>)
    requires Known(keys, names)
  {
    forall i, j :: 0 <= i < j < |names| ==> KeyLess(keys[names[i]], keys[names[j]])
  }

  predicate Distinct(names: seq<string>) {
    forall i, j :: 0 <= i < j < |names| ==> names[i] != names[j]
  }

  lemma FirstIsLeast(keys: Keys, names: seq<string>, name: string)
    requires Known(keys, names) && Ordered(keys, names) && name in names
    ensures name == names[0] || KeyLess(keys[names[0]], keys[name])
  {
  }

  lemma SameFirst(keys: Keys, a: seq<string>, b: seq<string>)
    requires Known(keys, a) && Known(keys, b) && Ordered(keys, a) && Ordered(keys, b)
    requires a != [] && b != [] && a[0] in b && b[0] in a
    ensures a[0] == b[0]
  {
    FirstIsLeast(keys, a, b[0]);
    FirstIsLeast(keys, b, a[0]);
    NeverBoth(keys[a[0]], keys[b[0]]);
  }

  lemma NeverBoth(a: SortKey, b: SortKey)
    ensures !(KeyLess(a, b) && KeyLess(b, a))
  {
    KeyIrreflexive(a);
    if KeyLess(a, b) && KeyLess(b, a) {
      KeyTransitive(a, b, a);
    }
  }

  /** There is one ordered arrangement of the same names at most. */
  lemma {:induction false} OrderedUnique(keys: Keys, a: seq<string>, b: seq<string>)
    requires Known(keys, a) && Known(keys, b)
    requires Ordered(keys, a) && Ordered(keys, b) && multiset(a) == multiset(b)
    ensures a == b
    decreases |a|
  {
    assert |multiset(a)| == |a| && |multiset(b)| == |b|;
    if a != [] {
      assert a[0] in multiset(b) && b[0] in multiset(a);
      SameFirst(keys, a, b);
      assert a == [a[0]] + a[1..] && b == [b[0]] + b[1..];
      assert multiset(a[1..]) == multiset(a) - multiset{a[0]};
      assert multiset(b[1..]) == multiset(b) - multiset{b[0]};
      OrderedUnique(keys, a[1..], b[1..]);
    }
  }

  /** Sorts a list of candidates by their keys. */
  method SortCandidates(keys: Keys, names: seq<string>) returns (ranked: seq<string>)
    requires Named(keys) && Known(keys, names) && Distinct(names)
    ensures multiset(ranked) == multiset(names)
    ensures Known(keys, ranked) && Ordered(keys, ranked)
  {
    ranked := [];
    for n := 0 to |names|
      invariant multiset(ranked) == multiset(names[..n])
      invariant forall x :: x in ranked ==> x in names[..n]
      invariant Known(keys, ranked) && Ordered(keys, ranked)
    {
      assert names[..n + 1] == names[..n] + [names[n]];
      ranked := InsertCandidate(keys, ranked, names[n]);
    }
    assert names[..|names|] == names;
  }

  method InsertCandidate(keys: Keys, ranked: seq<string>, name: string) returns (longer: seq<string>)
    requires Named(keys) && Known(keys, ranked) && Ordered(keys, ranked) && name in keys && name !in ranked
    ensures multiset(longer) == multiset(ranked) + multiset{name}
    ensures forall x :: x in longer ==> x in ranked || x == name
    ensures Known(keys, longer) && Ordered(keys, longer)
  {
    var k := 0;
    while k < |ranked| && KeyLess(keys[ranked[k]], keys[name])
      invariant 0 <= k <= |ranked|
      invariant forall i :: 0 <= i < k ==> KeyLess(keys[ranked[i]], keys[name])
    {
      k := k + 1;
    }
    longer := ranked[..k] + [name] + ranked[k..];
    assert ranked == ranked[..k] + ranked[k..];
    forall j | k <= j < |ranked| ensures KeyLess(keys[name], keys[ranked[j]]) {
      KeyTotal(keys[ranked[k]], keys[name]);
      if k < j {
        KeyTransitive(keys[name], keys[ranked[k]], keys[ranked[j]]);
      }
    }
    InsertedIsOrdered(keys, ranked, name, k);
  }

  lemma InsertedIsOrdered(keys: Keys, ranked: seq<string>, name: string, k: nat)
    requires Known(keys, ranked) && Ordered(keys, ranked) && name in keys && k <= |ranked|
    requires forall i :: 0 <= i < k ==> KeyLess(keys[ranked[i]], keys[name])
    requires forall j :: k <= j < |ranked| ==> KeyLess(keys[name], keys[ranked[j]])
    ensures Known(keys, ranked[..k] + [name] + ranked[k..])
    ensures Ordered(keys, ranked[..k] + [name] + ranked[k..])
  {
  }

  // ---------------------------------------------------------------------------------------
  // The decision
  // ---------------------------------------------------------------------------------------

  datatype Request = Request(strategy: Option<string>, candidates: Option<seq<string>>, providerOrder: Option<seq<string>>)

  datatype Decision = Decision(strategy: Strategy, selected: string, order: seq<string>, scores: seq<real>, metrics: seq<Metrics>)

  function ParseStrategy(text: string): Result<Strategy> {
    if text == "lowest_latency" then Ok(LowestLatency)
    else if text == "lowest_cost" then Ok(LowestCost)
    else if text == "quality_first" then Ok(QualityFirst)
    else if text == "balanced" then Ok(Balanced)
    else Err
  }

  function ChosenStrategy(q: Request): Result<Strategy> {
    ParseStrategy(if q.strategy.Some? then q.strategy.value else "balanced")
  }

  function ChosenCandidates(q: Request): seq<string> {
    if q.candidates.Some? then q.candidates.value
    else if q.providerOrder.Some? then q.providerOrder.value
    else ["deterministic"]
  }

  /** What the candidate list must satisfy before anything is ranked. */
  predicate Acceptable(catalog: Catalog, names: seq<string>) {
    && names != []
    && (forall i :: 0 <= i < |names| ==> !Retry.Blank(names[i]))
    && Distinct(names)
    && forall i :: 0 <= i < |names| ==> names[i] in catalog
  }

  function Available(names: seq<string>, available: set<string>): (kept: seq<string>)
    ensures forall x :: x in kept <==> x in names && x in available
  {
    if names == [] then []
    else
      var rest := Available(names[..|names| - 1], available);
      if names[|names| - 1] in available then rest + [names[|names| - 1]] else rest
  }

  function AvailableSet(catalog: Catalog, available: Option<set<string>>): set<string> {
    if available.Some? then available.value else catalog.Keys
  }

  function KeysFor(catalog: Catalog, strategy: Strategy): Keys {
    map name | name in catalog :: KeyFor(catalog[name], strategy)
  }

  /** The scores and metrics that are recorded beside the order. */
  ghost predicate Explains(catalog: Catalog, strategy: Strategy, order: seq<string>, scores: seq<real>, metrics: seq<Metrics>) {
    && |scores| == |order| == |metrics|
    && forall i :: 0 <= i < |order| ==>
         order[i] in catalog && scores[i] == Score(catalog[order[i]], strategy) && metrics[i] == catalog[order[i]]
  }

  method Explain(catalog: Catalog, strategy: Strategy, order: seq<string>) returns (scores: seq<real>, metrics: seq<Metrics>)
    requires forall i :: 0 <= i < |order| ==> order[i] in catalog
    ensures Explains(catalog, strategy, order, scores, metrics)
  {
    scores, metrics := [], [];
    for i := 0 to |order|
      invariant |scores| == i == |metrics|
      invariant forall k :: 0 <= k < i ==> scores[k] == Score(catalog[order[k]], strategy) && metrics[k] == catalog[order[k]]
    {
      scores := scores + [Score(catalog[order[i]], strategy)];
      metrics := metrics + [catalog[order[i]]];
    }
  }

  /** What a decision has to be for a request. */
  ghost predicate IsDecision(catalog: Catalog, q: Request, available: set<string>, d: Decision) {
    && Ok(d.strategy) == ChosenStrategy(q)
    && Known(KeysFor(catalog, d.strategy), d.order) && d.order != []
    && multiset(d.order) == multiset(Available(ChosenCandidates(q), available))
    && Ordered(KeysFor(catalog, d.strategy), d.order)
    && d.selected == d.order[0]
    && Explains(catalog, d.strategy, d.order, d.scores, d.metrics)
  }

  lemma {:induction false} AvailableDistinct(names: seq<string>, available: set<string>)
    requires Distinct(names)
    ensures Distinct(Available(names, available))
  {
    if names != [] {
      AvailableDistinct(names[..|names| - 1], available);
    }
  }

  /**
   `resolve_routing_decision`: the error cases in the order of the code, and otherwise the
   available candidates in the one order that their keys allow.
   */
  method ResolveRouting(catalog: Catalog, q: Request, available: Option<set<string>>) returns (r: Result<Decision>)
    requires Keyed(catalog)
    ensures r.Err? <==>
              || ChosenStrategy(q).Err?
              || !Acceptable(catalog, ChosenCandidates(q))
              || Available(ChosenCandidates(q), AvailableSet(catalog, available)) == []
    ensures r.Ok? ==> IsDecision(catalog, q, AvailableSet(catalog, available), r.value)
  {
    var strategy := ChosenStrategy(q);
    if strategy.Err? {
      return Err;
    }
    var names := ChosenCandidates(q);
    if !Acceptable(catalog, names) {
      return Err;
    }
    var usable := AvailableSet(catalog, available);
    var ranked := KeepAvailable(names, usable);
    if ranked == [] {
      return Err;
    }
    AvailableDistinct(names, usable);
    var keys := KeysFor(catalog, strategy.value);
    forall i | 0 <= i < |ranked| ensures ranked[i] in keys {
      assert ranked[i] in names;
    }
    var order := SortCandidates(keys, ranked);
    assert |multiset(order)| == |order| && |multiset(ranked)| == |ranked|;
    var scores, metrics := Explain(catalog, strategy.value, order);
    return Ok(Decision(strategy.value, order[0], order, scores, metrics));
  }

  method KeepAvailable(names: seq<string>, usable: set<string>) returns (kept: seq<string>)
    ensures kept == Available(names, usable)
  {
    kept := [];
    for i := 0 to |names|
      invariant kept == Available(names[..i], usable)
    {
      assert names[..i + 1][..i] == names[..i];
      if names[i] in usable {
        kept := kept + [names[i]];
      }
    }
    assert names[..|names|] == names;
  }

  // ---------------------------------------------------------------------------------------
  // Canonicity
  // ---------------------------------------------------------------------------------------

  lemma {:induction false} AvailableMultiset(names: seq<string>, available: set<string>, x: string)
    ensures multiset(Available(names, available))[x] == if x in available then multiset(names)[x] else 0
  {
    if names != [] {
      var n := |names| - 1;
      AvailableMultiset(names[..n], available, x);
      assert names == names[..n] + [names[n]];
    }
  }

  lemma AvailablePermutes(a: seq<string>, b: seq<string>, available: set<string>)
    requires multiset(a) == multiset(b)
    ensures multiset(Available(a, available)) == multiset(Available(b, available))
  {
    forall x ensures multiset(Available(a, available))[x] == multiset(Available(b, available))[x] {
      AvailableMultiset(a, available, x);
      AvailableMultiset(b, available, x);
    }
  }

  /**
   The decision does not depend on the order in which a caller lists the candidates: whatever is
   a decision for one listing is the only decision for any permutation of it.
   */
  lemma DecisionIsCanonical(catalog: Catalog, q: Request, q': Request, available: set<string>, d: Decision, d': Decision)
    requires Keyed(catalog)
    requires ChosenStrategy(q) == ChosenStrategy(q') && multiset(ChosenCandidates(q)) == multiset(ChosenCandidates(q'))
    requires IsDecision(catalog, q, available, d) && IsDecision(catalog, q', available, d')
    ensures d == d'
  {
    AvailablePermutes(ChosenCandidates(q), ChosenCandidates(q'), available);
    OrderedUnique(KeysFor(catalog, d.strategy), d.order, d'.order);
    assert d.scores == d'.scores;
    assert d.metrics == d'.metrics;
  }

  lemma {:induction false} DistinctByCount(names: seq<string>)
    ensures Distinct(names) <==> forall x :: multiset(names)[x] <= 1
  {
    if names != [] {
      var n := |names| - 1;
      DistinctByCount(names[..n]);
      assert names == names[..n] + [names[n]];
      if Distinct(names) {
        assert names[n] !in names[..n];
        assert multiset(names[..n])[names[n]] == 0;
      } else if Distinct(names[..n]) {
        var i, j :| 0 <= i < j < |names| && names[i] == names[j];
        assert j == n;
        assert names[..n][i] == names[n];
        assert multiset(names)[names[n]] >= 2;
      } else {
        var x :| multiset(names[..n])[x] > 1;
        assert multiset(names)[x] > 1;
      }
    }
  }

  lemma MembersPermute(a: seq<string>, b: seq<string>)
    requires multiset(a) == multiset(b)
    ensures |a| == |b|
    ensures forall x :: x in a ==> x in b
  {
    assert |multiset(a)| == |a| && |multiset(b)| == |b|;
    forall x | x in a ensures x in b {
      assert x in multiset(a);
    }
  }

  lemma AcceptableOneWay(catalog: Catalog, a: seq<string>, b: seq<string>)
    requires multiset(a) == multiset(b) && Acceptable(catalog, a)
    ensures Acceptable(catalog, b)
  {
    MembersPermute(b, a);
    forall i | 0 <= i < |b| ensures !Retry.Blank(b[i]) && b[i] in catalog {
      assert b[i] in b && b[i] in a;
    }
    DistinctByCount(a);
    DistinctByCount(b);
  }

  /** Neither does acceptance. */
  lemma AcceptancePermutes(catalog: Catalog, a: seq<string>, b: seq<string>, available: set<string>)
    requires multiset(a) == multiset(b)
    ensures Acceptable(catalog, a) <==> Acceptable(catalog, b)
    ensures Available(a, available) == [] <==> Available(b, available) == []
  {
    if Acceptable(catalog, a) {
      AcceptableOneWay(catalog, a, b);
    }
    if Acceptable(catalog, b) {
      AcceptableOneWay(catalog, b, a);
    }
    AvailablePermutes(a, b, available);
    MembersPermute(Available(a, available), Available(b, available));
  }

  // ---------------------------------------------------------------------------------------
  // What each strategy achieves
  // ---------------------------------------------------------------------------------------

  /** Preferring by one figure after the other: the first difference decides, and smaller is better. */
  predicate Prefers(a0: real, b0: real, a1: real, b1: real, a2: real, b2: real, a3: real, b3: real) {
    a0 < b0 || (a0 == b0 && (a1 < b1 || (a1 == b1 && (a2 < b2 || (a2 == b2 && a3 <= b3)))))
  }

  /** The cost, latency, failures and downtime of a provider in one figure. */
  function Weighted(m: Metrics): real {
    0.000175 * m.costMicrousd as real + 0.0003 * m.medianLatencyMs as real + 0.25 * (1.0 - m.passRate) + 0.1 * (1.0 - m.availability)
  }

  /**
   `m` may come before `n`: the cheaper, the faster, or the better one, with the other figures
   breaking ties, or the one whose weighted figure is smaller up to rounding.
   */
  predicate MayPrecede(m: Metrics, n: Metrics, strategy: Strategy) {
    var cost, cost' := m.costMicrousd as real, n.costMicrousd as real;
    var latency, latency' := m.medianLatencyMs as real, n.medianLatencyMs as real;
    var misses, misses' := 1.0 - m.passRate, 1.0 - n.passRate;
    var downtime, downtime' := 1.0 - m.availability, 1.0 - n.availability;
    match strategy
    case LowestLatency => Prefers(latency, latency', cost, cost', misses, misses', downtime, downtime')
    case LowestCost => Prefers(cost, cost', latency, latency', misses, misses', downtime, downtime')
    case QualityFirst => Prefers(misses, misses', downtime, downtime', latency, latency', cost, cost')
    case Balanced => Weighted(m) <= Weighted(n) + 0.000001
  }

  lemma RoundedIsNear(x: real)
    ensures x - 0.0000005 <= Round6(x) <= x + 0.0000005
  {
  }

  lemma RoundingIsMonotone(x: real, y: real)
    requires x <= y
    ensures Round6(x) <= Round6(y)
  {
    var a, b := (x * 1000000.0).Floor, (y * 1000000.0).Floor;
    assert a <= b;
  }

  lemma ScoreIsNear(m: Metrics)
    ensures Weighted(m) - 0.0000005 <= BalancedScore(m) <= Weighted(m) + 0.0000005
  {
    RoundedIsNear(Weighted(m));
  }

  /** The recorded score is the figure that the strategy looks at first, up to rounding. */
  lemma ScoreIsTheFigure(m: Metrics)
    ensures Score(m, LowestLatency) == m.medianLatencyMs as real && Score(m, LowestCost) == m.costMicrousd as real
    ensures 1.0 - m.passRate - 0.0000005 <= Score(m, QualityFirst) <= 1.0 - m.passRate + 0.0000005
    ensures Weighted(m) - 0.0000005 <= Score(m, Balanced) <= Weighted(m) + 0.0000005
  {
    RoundedIsNear(1.0 - m.passRate);
    ScoreIsNear(m);
  }

  lemma KeyHead(a: SortKey, b: SortKey)
    requires KeyLess(a, b) && a.numbers != [] && b.numbers != []
    ensures a.numbers[0] < b.numbers[0] || (a.numbers[0] == b.numbers[0] && KeyLess(Tail(a), Tail(b)))
  {
  }

  lemma KeyLessPrefers(a: SortKey, b: SortKey)
    requires KeyLess(a, b) && |a.numbers| == 4 == |b.numbers|
    ensures Prefers(a.numbers[0], b.numbers[0], a.numbers[1], b.numbers[1], a.numbers[2], b.numbers[2], a.numbers[3], b.numbers[3])
  {
    KeyHead(a, b);
    if a.numbers[0] == b.numbers[0] {
      KeyHead(Tail(a), Tail(b));
      if a.numbers[1] == b.numbers[1] {
        KeyHead(Tail(Tail(a)), Tail(Tail(b)));
        if a.numbers[2] == b.numbers[2] {
          KeyHead(Tail(Tail(Tail(a))), Tail(Tail(Tail(b))));
        }
      }
    }
  }

  lemma KeysPrecede(m: Metrics, n: Metrics, strategy: Strategy)
    requires KeyLess(KeyFor(m, strategy), KeyFor(n, strategy))
    ensures MayPrecede(m, n, strategy) && Score(m, strategy) <= Score(n, strategy)
  {
    var a, b := KeyFor(m, strategy), KeyFor(n, strategy);
    if strategy.Balanced? {
      ScoreIsNear(m);
      ScoreIsNear(n);
      KeyHead(a, b);
    } else {
      KeyLessPrefers(a, b);
      if strategy.QualityFirst? {
        RoundingIsMonotone(1.0 - m.passRate, 1.0 - n.passRate);
      }
    }
  }

  /**
   Along a decision's order every provider may precede the later ones, the recorded scores never
   fall, and the selected provider may precede every available candidate.
   */
  lemma OrderFollowsStrategy(catalog: Catalog, q: Request, available: set<string>, d: Decision)
    requires Keyed(catalog) && IsDecision(catalog, q, available, d)
    ensures forall i, j :: 0 <= i < j < |d.order| ==>
              && d.order[i] in catalog && d.order[j] in catalog && d.scores[i] <= d.scores[j]
              && MayPrecede(catalog[d.order[i]], catalog[d.order[j]], d.strategy)
    ensures forall name :: name in ChosenCandidates(q) && name in available ==>
              name in catalog && d.selected in catalog && (name == d.selected || MayPrecede(catalog[d.selected], catalog[name], d.strategy))
  {
    var keys := KeysFor(catalog, d.strategy);
    forall i, j | 0 <= i < j < |d.order|
      ensures d.order[i] in catalog && d.order[j] in catalog && d.scores[i] <= d.scores[j]
      ensures MayPrecede(catalog[d.order[i]], catalog[d.order[j]], d.strategy)
    {
      assert KeyLess(keys[d.order[i]], keys[d.order[j]]);
      KeysPrecede(catalog[d.order[i]], catalog[d.order[j]], d.strategy);
    }
    MembersPermute(Available(ChosenCandidates(q), available), d.order);
    forall name | name in ChosenCandidates(q) && name in available
      ensures name in catalog && d.selected in catalog
      ensures name == d.selected || MayPrecede(catalog[d.selected], catalog[name], d.strategy)
    {
      assert name in Available(ChosenCandidates(q), available);
      var j :| 0 <= j < |d.order| && d.order[j] == name;
      assert j == 0 || MayPrecede(catalog[d.order[0]], catalog[d.order[j]], d.strategy);
    }
  }
}
