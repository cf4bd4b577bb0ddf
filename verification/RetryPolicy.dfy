/** Exponential backoff with jitter: when a failed attempt is retried, and after how long. */
module RetryPolicy {
  import opened Types

  /** Go's `time.Duration`: a signed 64-bit count of nanoseconds. Every operation on
      it below is proved not to overflow. */
  newtype Duration = x: int | -0x8000_0000_0000_0000 <= x < 0x8000_0000_0000_0000

  /** What the policy reads off an error: its own verdict if it has one, whether it is a
      network error or an unexpected end of input, and the provider's suggested delay. */
  datatype Failure = Failure(classified: Option<bool>, network: bool, suggested: Option<Duration>)

  predicate IsRetryable(failure: Failure) {
    match failure.classified
    case Some(verdict) => verdict
    case None => failure.network
  }

  function SuggestedDelay(failure: Failure): Duration {
    match failure.suggested
    case None => 0
    case Some(delay) => if delay < 0 then 0 else delay
  }

  function Scaled(x: real, factor: real): real {
    x * factor
  }

  function Truncated(x: real, cap: int): int {
    if x <= 0.0 then 0 else if x >= cap as real then cap else x.Floor
  }

  datatype Policy = Policy(maxAttempts: int, baseDelay: Duration, maxDelay: Duration, jitter: real) {

    /** The checks of `NewPolicy`. */
    predicate Valid() {
      0 < maxAttempts && 0 < baseDelay && 0 < maxDelay && baseDelay <= maxDelay && 0.0 <= jitter <= 1.0
    }

    /** The closed form of the backoff: base * 2^(attempt - 1), capped. */
    function Backoff(attempt: int): int {
      Min(baseDelay as int * Pow2(Max(attempt - 1, 0)), maxDelay as int)
    }

    /** The doubling loop. */
    method ExponentialDelay(attempt: int) returns (delay: Duration)
      requires Valid()
      ensures delay as int == Backoff(attempt)
      ensures attempt >= 1 ==> delay as int == Min(baseDelay as int * Pow2(attempt - 1), maxDelay as int)
    {
      delay := baseDelay;
      var current := 1;
      while current < attempt
        invariant 1 <= current
        invariant attempt <= 1 ==> current == 1
        invariant 1 < attempt ==> current <= attempt
        invariant delay as int == baseDelay as int * Pow2(current - 1)
        invariant delay <= maxDelay
        decreases attempt - current
      {
        if delay >= maxDelay || delay > maxDelay / 2 {
          Pow2Monotone(current, attempt - 1);
          ProductMonotone(baseDelay as int, Pow2(current), Pow2(attempt - 1));
          assert baseDelay as int * Pow2(current) == 2 * (delay as int);
          return maxDelay;
        }
        delay := delay * 2;
        current := current + 1;
      }
      if delay > maxDelay {
        return maxDelay;
      }
    }

    function Factor(random: real): real {
      var r := if random < 0.0 then 0.0 else if random > 1.0 then 1.0 else random;
      (1.0 - jitter) + 2.0 * jitter * r
    }

    /** The delay scaled by a random factor in [1 - jitter, 1 + jitter], capped and truncated. */
    function Jittered(delay: int, factor: real): int {
      if jitter == 0.0 then delay else Truncated(Scaled(delay as real, factor), maxDelay as int)
    }

    method WithJitter(delay: Duration, random: real) returns (r: Duration)
      requires Valid() && 0 <= delay <= maxDelay
      ensures r as int == Jittered(delay as int, Factor(random))
    {
      if jitter == 0.0 {
        return delay;
      }
      var clamped := random;
      if clamped < 0.0 {
        clamped := 0.0;
      } else if clamped > 1.0 {
        clamped := 1.0;
      }
      var minimumFactor := 1.0 - jitter;
      var factor := minimumFactor + 2.0 * jitter * clamped;
      var jittered := delay as real * factor;
      if jittered <= 0.0 {
        return 0;
      }
      if jittered >= maxDelay as real {
        return maxDelay;
      }
      return jittered.Floor as Duration;
    }

    /** Whether a failed attempt is retried; `live` says the context is not cancelled. */
    predicate Retries(live: bool, attempt: int, failure: Failure) {
      live && 0 < attempt < maxAttempts && IsRetryable(failure)
    }

    function DelayOf(attempt: int, failure: Failure, factor: real): int {
      DelayFrom(Backoff(attempt), failure, factor)
    }

    function DelayFrom(backoff: int, failure: Failure, factor: real): int {
      Max(Jittered(backoff, factor), SuggestedDelay(failure) as int)
    }

    method NextDelay(live: bool, attempt: int, failure: Option<Failure>, random: real)
      returns (delay: Duration, again: bool)
      requires Valid()
      ensures again <==> failure.Some? && Retries(live, attempt, failure.value)
      ensures delay as int == if again then DelayOf(attempt, failure.value, Factor(random)) else 0
      ensures again <==>
                && failure.Some? && live && 0 < attempt < maxAttempts
                && (failure.value.classified == Some(true) || (failure.value.classified == None && failure.value.network))
      ensures again && failure.value.suggested.Some? ==> delay >= failure.value.suggested.value
      ensures again ==>
                delay as int >= Jittered(Min(baseDelay as int * Pow2(attempt - 1), maxDelay as int), Factor(random))
      ensures again ==>
                || delay as int == Jittered(Min(baseDelay as int * Pow2(attempt - 1), maxDelay as int), Factor(random))
                || failure.value.suggested == Some(delay)
    {
      if failure.None? || attempt <= 0 {
        return 0, false;
      }
      if !live {
        return 0, false;
      }
      if attempt >= maxAttempts || !IsRetryable(failure.value) {
        return 0, false;
      }
      delay := ExponentialDelay(attempt);
      BackoffInRange(this, attempt);
      delay := WithJitter(delay, random);
      var suggested := SuggestedDelay(failure.value);
      if suggested > delay {
        delay := suggested;
      }
      return delay, true;
    }
  }

  /** `NewPolicy`: what it refuses. */
  method NewPolicy(maxAttempts: int, baseDelay: Duration, maxDelay: Duration, jitter: real) returns (p: Option<Policy>)
    ensures p.Some? <==> maxAttempts > 0 && 0 < baseDelay <= maxDelay && 0.0 <= jitter <= 1.0
    ensures p.Some? ==> p.value == Policy(maxAttempts, baseDelay, maxDelay, jitter) && p.value.Valid()
  {
    if maxAttempts <= 0 || baseDelay <= 0 || maxDelay <= 0 || baseDelay > maxDelay || jitter < 0.0 || jitter > 1.0 {
      return None;
    }
    return Some(Policy(maxAttempts, baseDelay, maxDelay, jitter));
  }

  const DEFAULT: Policy := Policy(8, 1_000_000_000, 3_600_000_000_000, 0.2)

  // ----- Arithmetic -----

  lemma {:induction false} Pow2Monotone(a: nat, b: nat)
    requires a <= b
    ensures Pow2(a) <= Pow2(b)
    decreases b - a
  {
    if a < b {
      Pow2Monotone(a, b - 1);
    }
  }

  lemma ProductMonotone(k: int, a: int, b: int)
    requires 0 <= k && a <= b
    ensures k * a <= k * b
  {
  }

  lemma BackoffInRange(p: Policy, attempt: int)
    requires p.Valid()
    ensures p.baseDelay as int <= p.Backoff(attempt) <= p.maxDelay as int
  {
    ProductMonotone(p.baseDelay as int, 1, Pow2(Max(attempt - 1, 0)));
  }

  /** A later attempt never waits for a shorter backoff. */
  lemma BackoffMonotone(p: Policy, a: int, b: int)
    requires p.Valid() && a <= b
    ensures p.Backoff(a) <= p.Backoff(b)
  {
    var x, y := Max(a - 1, 0), Max(b - 1, 0);
    Pow2Monotone(x, y);
    ProductMonotone(p.baseDelay as int, Pow2(x), Pow2(y));
  }

  lemma ScaledMonotone(x: real, a: real, b: real)
    requires 0.0 <= x && a <= b
    ensures Scaled(x, a) <= Scaled(x, b)
  {
  }

  lemma ScaledMonotoneLeft(x: real, y: real, f: real)
    requires x <= y && 0.0 <= f
    ensures Scaled(x, f) <= Scaled(y, f)
  {
  }

  lemma FactorBounds(p: Policy, random: real)
    requires p.Valid()
    ensures 1.0 - p.jitter <= p.Factor(random) <= 1.0 + p.jitter
  {
    var r := if random < 0.0 then 0.0 else if random > 1.0 then 1.0 else random;
    ScaledMonotone(2.0 * p.jitter, 0.0, r);
    ScaledMonotone(2.0 * p.jitter, r, 1.0);
  }

  lemma TruncatedBounds(x: real, cap: int, low: real, high: real)
    requires low <= x <= high && 0.0 <= low <= cap as real
    ensures 0 <= Truncated(x, cap) <= cap
    ensures low.Floor <= Truncated(x, cap)
    ensures low < Truncated(x, cap) as real + 1.0 && Truncated(x, cap) as real <= high
  {
  }

  /** Jitter keeps the delay within [(1 - j) * d, min(max, (1 + j) * d)], the lower end
      up to the final truncation to whole nanoseconds. */
  lemma JitterBounds(p: Policy, d: int, factor: real)
    requires p.Valid() && 0 <= d <= p.maxDelay as int
    requires 1.0 - p.jitter <= factor <= 1.0 + p.jitter
    ensures 0 <= p.Jittered(d, factor) <= p.maxDelay as int
    ensures Scaled(d as real, 1.0 - p.jitter) < p.Jittered(d, factor) as real + 1.0
    ensures p.Jittered(d, factor) as real <= Scaled(d as real, 1.0 + p.jitter)
    ensures Scaled(d as real, 1.0 - p.jitter).Floor <= p.Jittered(d, factor)
  {
    var x, a, b := d as real, 1.0 - p.jitter, 1.0 + p.jitter;
    assert Scaled(x, 0.0) == 0.0 && Scaled(x, 1.0) == x;
    ScaledMonotone(x, 0.0, a);
    ScaledMonotone(x, a, 1.0);
    ScaledMonotone(x, 1.0, b);
    ScaledMonotone(x, a, factor);
    ScaledMonotone(x, factor, b);
    TruncatedBounds(Scaled(x, factor), p.maxDelay as int, Scaled(x, a), Scaled(x, b));
  }

  /** The jitter, written out: the delay times 1 - j + 2 * j * r, for r cut to [0, 1], capped
      at the maximum and truncated to whole nanoseconds. */
  lemma JitteredIs(p: Policy, d: int, random: real, r: real, scaled: real)
    requires p.Valid()
    requires r == (if random < 0.0 then 0.0 else if random > 1.0 then 1.0 else random)
    requires scaled == d as real * ((1.0 - p.jitter) + 2.0 * p.jitter * r)
    ensures var jittered := p.Jittered(d, p.Factor(random));
            if p.jitter == 0.0 then jittered == d
            else if scaled <= 0.0 then jittered == 0
            else if scaled >= p.maxDelay as real then jittered == p.maxDelay as int
            else jittered as real <= scaled < jittered as real + 1.0
  {
    assert p.Factor(random) == (1.0 - p.jitter) + 2.0 * p.jitter * r;
    assert Scaled(d as real, p.Factor(random)) == scaled;
    TruncatedIs(scaled, p.maxDelay as int);
    hide Scaled, Truncated, Policy.Factor;
  }

  lemma TruncatedIs(x: real, cap: int)
    ensures if x <= 0.0 then Truncated(x, cap) == 0
            else if x >= cap as real then Truncated(x, cap) == cap
            else Truncated(x, cap) as real <= x < Truncated(x, cap) as real + 1.0
  {
  }

  /** The delay of a retry, with the provider's suggestion taken in. */
  lemma DelayBounds(p: Policy, backoff: int, failure: Failure, factor: real)
    requires p.Valid() && 0 <= backoff <= p.maxDelay as int
    requires 1.0 - p.jitter <= factor <= 1.0 + p.jitter
    ensures p.DelayFrom(backoff, failure, factor) >= SuggestedDelay(failure) as int
    ensures p.DelayFrom(backoff, failure, factor) >= Scaled(backoff as real, 1.0 - p.jitter).Floor
    ensures p.DelayFrom(backoff, failure, factor) <= Max(p.maxDelay as int, SuggestedDelay(failure) as int)
  {
    JitterBounds(p, backoff, factor);
  }

  // ----- The zero-delay sentinel -----

  /** The policy promised a retry, but its delay is zero, which the store reads as
      "give up" (it retries only when `delay > 0`). */
  predicate LostRetry(p: Policy, attempt: int, failure: Failure, random: real) {
    p.Retries(true, attempt, failure) && p.DelayOf(attempt, failure, p.Factor(random)) <= 0
  }

  /** Such a policy passes `NewPolicy`: one nanosecond with full jitter. */
  lemma SentinelCanDisagree()
    ensures Policy(3, 1, 10, 1.0).Valid()
    ensures LostRetry(Policy(3, 1, 10, 1.0), 1, Failure(Some(true), false, None), 0.0)
  {
    var p := Policy(3, 1, 10, 1.0);
    assert Pow2(0) == 1;
    assert p.Backoff(1) == 1;
    assert p.Factor(0.0) == 0.0;
  }

  /** The two packages agree on every failure exactly when the policy never retries, or
      when the smallest first delay is at least one nanosecond. */
  lemma SentinelAgreesIff(p: Policy)
    requires p.Valid()
    ensures (forall attempt: int, failure: Failure, random: real :: !LostRetry(p, attempt, failure, random))
            <==> (p.maxAttempts == 1 || Scaled(p.baseDelay as real, 1.0 - p.jitter) >= 1.0)
  {
    if p.maxAttempts == 1 {
    } else if Scaled(p.baseDelay as real, 1.0 - p.jitter) >= 1.0 {
      forall attempt: int, failure: Failure, random: real ensures !LostRetry(p, attempt, failure, random) {
        SentinelHolds(p, attempt, failure, random);
      }
    } else {
      SentinelFails(p);
    }
  }

  lemma SentinelHolds(p: Policy, attempt: int, failure: Failure, random: real)
    requires p.Valid() && Scaled(p.baseDelay as real, 1.0 - p.jitter) >= 1.0
    ensures p.DelayOf(attempt, failure, p.Factor(random)) >= 1
  {
    FactorBounds(p, random);
    SmallestDelay(p, attempt, failure, p.Factor(random));
  }

  lemma SmallestDelay(p: Policy, attempt: int, failure: Failure, factor: real)
    requires p.Valid() && Scaled(p.baseDelay as real, 1.0 - p.jitter) >= 1.0
    requires 1.0 - p.jitter <= factor <= 1.0 + p.jitter
    ensures p.DelayOf(attempt, failure, factor) >= 1
  {
    BackoffInRange(p, attempt);
    ScaledMonotoneLeft(p.baseDelay as real, p.Backoff(attempt) as real, 1.0 - p.jitter);
    DelayBounds(p, p.Backoff(attempt), failure, factor);
  }

  lemma SentinelFails(p: Policy)
    requires p.Valid() && p.maxAttempts > 1 && Scaled(p.baseDelay as real, 1.0 - p.jitter) < 1.0
    ensures LostRetry(p, 1, Failure(Some(true), false, None), 0.0)
  {
    assert Pow2(0) == 1;
    assert p.Backoff(1) == p.baseDelay as int;
    assert p.Factor(0.0) == 1.0 - p.jitter;
  }

  /** The policy the notifier is wired with is one of those that agree. */
  lemma DefaultPolicyAgrees(attempt: int, failure: Failure, random: real)
    ensures DEFAULT.Valid() && !LostRetry(DEFAULT, attempt, failure, random)
  {
    SentinelHolds(DEFAULT, attempt, failure, random);
  }

  /** The default schedule: a retryable failure is retried after the attempts 1 to 7, and the
      waits are 1, 2, 4, ..., 64 seconds, a fifth more or less. */
  lemma DefaultSchedule(attempt: int, failure: Failure, random: real)
    requires failure.classified == Some(true) && failure.suggested == None
    ensures DEFAULT.Retries(true, attempt, failure) <==> 1 <= attempt <= 7
    ensures 1 <= attempt <= 7 ==>
              var seconds := [1, 2, 4, 8, 16, 32, 64][attempt - 1];
              800_000_000 * seconds <= DEFAULT.DelayOf(attempt, failure, DEFAULT.Factor(random)) <= 1_200_000_000 * seconds
  {
    if 1 <= attempt <= 7 {
      var seconds := [1, 2, 4, 8, 16, 32, 64][attempt - 1];
      assert Pow2(6) == 2 * Pow2(5) && Pow2(5) == 2 * Pow2(4) && Pow2(4) == 2 * Pow2(3)
          && Pow2(3) == 2 * Pow2(2) && Pow2(2) == 2 * Pow2(1) && Pow2(1) == 2 * Pow2(0);
      var d := DEFAULT.Backoff(attempt);
      assert d == 1_000_000_000 * seconds;
      FactorBounds(DEFAULT, random);
      JitterBounds(DEFAULT, d, DEFAULT.Factor(random));
      assert Scaled(d as real, 1.0 - 0.2) == (800_000_000 * seconds) as real;
      assert Scaled(d as real, 1.0 + 0.2) == (1_200_000_000 * seconds) as real;
    }
  }
}
