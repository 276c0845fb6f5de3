/** The retry contract stored with each accepted run. */
module Retry {
  import opened Domain

  datatype Float = Finite(r: real) | NonFinite

  /** The JSON values a policy snapshot can hold, as far as the parser can tell them apart. */
  datatype Value =
    | IntValue(i: int)
    | FloatValue(f: Float)
    | TextValue(text: string)
    | TextList(texts: seq<string>)
    | OtherValue

  /** The keys of a policy snapshot: the ones the runtime knows by name, and any other. */
  datatype Field =
    | MaxAttempts | AttemptTimeout | InitialBackoff | MaxBackoff | ProviderOrder
    | MaxOutputTokens | Model | Instructions | WorkKindName
    | OtherField(name: string)

  type Snapshot = map<Field, Value>

  datatype RetryPolicy = RetryPolicy(
    maxAttempts: int,
    attemptTimeout: real,
    initialBackoff: real,
    maxBackoff: real,
    providerOrder: seq<string>)

  const ATTEMPT_CAP := 20
  const EXPONENT_CAP := 20

  /** The characters that stripping removes. */
  predicate IsSpace(ch: char) {
    var code := ch as int;
    0x09 <= code <= 0x0D || 0x1C <= code <= 0x20 || code == 0x85 || code == 0xA0 || code == 0x1680 ||
    0x2000 <= code <= 0x200A || code == 0x2028 || code == 0x2029 || code == 0x202F ||
    code == 0x205F || code == 0x3000
  }

  predicate Blank(text: string) {
    forall i :: 0 <= i < |text| ==> IsSpace(text[i])
  }

  /** What the constructor checks. */
  predicate Valid(p: RetryPolicy) {
    && 1 <= p.maxAttempts <= ATTEMPT_CAP
    && p.attemptTimeout > 0.0
    && p.initialBackoff > 0.0
    && p.maxBackoff >= p.initialBackoff
    && p.providerOrder != []
    && forall i :: 0 <= i < |p.providerOrder| ==> !Blank(p.providerOrder[i])
  }

  // ---------------------------------------------------------------------------------------
  // Backoff
  // ---------------------------------------------------------------------------------------

  /** `x * 2 ** k`. */
  function Doubled(x: real, k: nat): real {
    if k == 0 then x else 2.0 * Doubled(x, k - 1)
  }

  /** `delay_after_attempt`: attempt numbers below one are rejected. */
  function DelayAfterAttempt(p: RetryPolicy, attempt: int): Result<real> {
    if attempt < 1 then Err else Ok(Delay(p, attempt))
  }

  function Delay(p: RetryPolicy, attempt: int): real
    requires attempt >= 1
  {
    MaxReal(1.0, MinReal(p.maxBackoff, Doubled(p.initialBackoff, Min(attempt - 1, EXPONENT_CAP))))
  }

  /** The same law without the cap on the exponent. */
  function UncappedDelay(p: RetryPolicy, attempt: int): real
    requires attempt >= 1
  {
    MaxReal(1.0, MinReal(p.maxBackoff, Doubled(p.initialBackoff, attempt - 1)))
  }

  lemma {:induction false} DoubledMonotone(x: real, a: nat, b: nat)
    requires x >= 0.0 && a <= b
    ensures x <= Doubled(x, a) <= Doubled(x, b)
    decreases b
  {
    if a < b {
      DoubledMonotone(x, a, b - 1);
    } else if a > 0 {
      DoubledMonotone(x, a - 1, b - 1);
    }
  }

  /** Delays never shrink from one attempt to a later one and stay within the policy's bounds. */
  lemma DelayLaw(p: RetryPolicy, a: int, b: int)
    requires Valid(p) && 1 <= a <= b
    ensures Delay(p, a) <= Delay(p, b)
    ensures 1.0 <= Delay(p, a) <= MaxReal(1.0, p.maxBackoff)
    ensures Delay(p, 1) == MaxReal(1.0, p.initialBackoff)
  {
    DoubledMonotone(p.initialBackoff, Min(a - 1, EXPONENT_CAP), Min(b - 1, EXPONENT_CAP));
  }

  lemma {:induction false} DoubledShifts(x: real, k: nat)
    ensures Doubled(x, k + 1) == Doubled(x + x, k)
  {
    if k > 0 {
      DoubledShifts(x, k - 1);
    }
  }

  /** From one attempt to the next the delay doubles, until it meets the policy's maximum. */
  lemma DelayDoubles(p: RetryPolicy, k: int)
    requires Valid(p) && p.initialBackoff >= 1.0 && 1 <= k <= EXPONENT_CAP
    ensures Delay(p, k + 1) == MinReal(p.maxBackoff, Delay(p, k) + Delay(p, k))
  {
    DoubledMonotone(p.initialBackoff, k - 1, k);
  }

  /**
   The law for every policy, also for initial backoffs below the floor of one second: waiting one
   attempt longer is starting from twice the initial backoff, and the exponent stops growing at its
   cap. With the first delay this determines all of them.
   */
  lemma DelayScales(p: RetryPolicy, k: int)
    requires Valid(p) && k >= 1
    ensures Delay(p, 1) == MaxReal(1.0, p.initialBackoff)
    ensures k <= EXPONENT_CAP ==>
              Delay(p, k + 1) == var twice := p.initialBackoff + p.initialBackoff;
                                 if twice <= p.maxBackoff then Delay(p.(initialBackoff := twice), k) else MaxReal(1.0, p.maxBackoff)
    ensures k > EXPONENT_CAP ==> Delay(p, k + 1) == Delay(p, k)
  {
    if k <= EXPONENT_CAP {
      DoubledShifts(p.initialBackoff, k - 1);
      DoubledMonotone(p.initialBackoff + p.initialBackoff, 0, k - 1);
    }
  }

  /** For every attempt number a run can reach, the exponent cap is invisible. */
  lemma ExponentCapInvisible(p: RetryPolicy, attempt: int)
    requires Valid(p) && 1 <= attempt <= p.maxAttempts
    ensures DelayAfterAttempt(p, attempt) == Ok(UncappedDelay(p, attempt))
  {
  }

  // ---------------------------------------------------------------------------------------
  // Exceptions
  // ---------------------------------------------------------------------------------------

  /** What an execution can raise, as far as the classification looks at it. */
  datatype Raised = QuotaRefused | TimedOut | HttpStatus(status: int) | Unclassified

  /** `classify_exception`. */
  function Classify(raised: Raised): ErrorCode {
    match raised
    case QuotaRefused => QuotaExceeded
    case TimedOut => ProviderTimeout
    case HttpStatus(status) =>
      if status == 429 then ProviderRateLimited
      else if status == 401 || status == 403 then ProviderAuthFailed
      else if 500 <= status <= 599 then ProviderServerError
      else if 400 <= status <= 499 then ProviderBadRequest
      else ExecutionError
    case Unclassified => ExecutionError
  }

  /**
   Which executions get another try: all but those that a quota refused or whose request the
   provider rejected with a client error other than "too many requests".
   */
  lemma WorthAnotherTry(raised: Raised)
    ensures IsRetryable(Classify(raised)) <==>
              raised != QuotaRefused && (raised.HttpStatus? && 400 <= raised.status <= 499 ==> raised.status == 429)
    ensures Classify(raised) == ProviderTimeout <==> raised == TimedOut
    ensures Classify(raised) == QuotaExceeded <==> raised == QuotaRefused
    ensures Classify(raised) == ProviderRateLimited <==> raised == HttpStatus(429)
    ensures Classify(raised) == ProviderAuthFailed <==> raised == HttpStatus(401) || raised == HttpStatus(403)
    ensures Classify(raised) == ProviderServerError <==> raised.HttpStatus? && 500 <= raised.status <= 599
  {
  }

  // ---------------------------------------------------------------------------------------
  // Snapshots
  // ---------------------------------------------------------------------------------------

  function Get(snapshot: Snapshot, field: Field, fallback: Value): Value {
    if field in snapshot then snapshot[field] else fallback
  }

  function PositiveInt(v: Value): Result<int> {
    if v.IntValue? && v.i >= 1 then Ok(v.i) else Err
  }

  function PositiveFloat(v: Value): Result<real> {
    match v
    case IntValue(i) => if i > 0 then Ok(i as real) else Err
    case FloatValue(Finite(r)) => if r > 0.0 then Ok(r) else Err
    case _ => Err
  }

  function FromSnapshot(snapshot: Snapshot): (r: Result<RetryPolicy>)
    ensures r.Ok? ==> Valid(r.value)
  {
    var order := Get(snapshot, ProviderOrder, TextList(["deterministic"]));
    var attempts := PositiveInt(Get(snapshot, MaxAttempts, IntValue(3)));
    var timeout := PositiveFloat(Get(snapshot, AttemptTimeout, IntValue(60)));
    var initial := PositiveFloat(Get(snapshot, InitialBackoff, IntValue(1)));
    var maximum := PositiveFloat(Get(snapshot, MaxBackoff, IntValue(60)));
    if !order.TextList? || attempts.Err? || timeout.Err? || initial.Err? || maximum.Err? then Err
    else
      var p := RetryPolicy(Min(ATTEMPT_CAP, attempts.value), timeout.value, initial.value, maximum.value, order.texts);
      if Valid(p) then Ok(p) else Err
  }

  /** What a stored policy means where it is silent. */
  const FALLBACKS: Snapshot := map[
    MaxAttempts := IntValue(3),
    AttemptTimeout := IntValue(60),
    InitialBackoff := IntValue(1),
    MaxBackoff := IntValue(60),
    ProviderOrder := TextList(["deterministic"])]

  /** A silent field reads as its default, and attempts beyond the cap read as the cap. */
  lemma SilenceIsDefault(snapshot: Snapshot)
    ensures FromSnapshot(snapshot) == FromSnapshot(FALLBACKS + snapshot)
    ensures FromSnapshot(map[]) == Ok(RetryPolicy(3, 60.0, 1.0, 60.0, ["deterministic"]))
    ensures FromSnapshot(snapshot).Ok? && MaxAttempts in snapshot && snapshot[MaxAttempts].IntValue? ==>
              FromSnapshot(snapshot).value.maxAttempts == if snapshot[MaxAttempts].i <= 20 then snapshot[MaxAttempts].i else 20
  {
    assert "deterministic"[0] == 'd' && !IsSpace('d');
    assert !Blank("deterministic");
  }

  function AsSnapshot(p: RetryPolicy): Snapshot {
    map[MaxAttempts := IntValue(p.maxAttempts),
        AttemptTimeout := FloatValue(Finite(p.attemptTimeout)),
        InitialBackoff := FloatValue(Finite(p.initialBackoff)),
        MaxBackoff := FloatValue(Finite(p.maxBackoff)),
        ProviderOrder := TextList(p.providerOrder)]
  }

  /** Storing a valid policy and reading it back, alone or on top of other fields, loses nothing. */
  lemma SnapshotRoundTrip(p: RetryPolicy, base: Snapshot)
    requires Valid(p)
    ensures FromSnapshot(AsSnapshot(p)) == Ok(p)
    ensures FromSnapshot(base + AsSnapshot(p)) == Ok(p)
  {
  }
}
