/** Reconnect policies and the loop that applies them. */
module Reconnect {
  import opened Prelude

  const U32_MAX: nat := 0xFFFF_FFFF
  const U64_MAX: nat := 0xFFFF_FFFF_FFFF_FFFF

  type u32 = n: int | 0 <= n <= 0xFFFF_FFFF

  function Min(a: nat, b: nat): nat {
    if a < b then a else b
  }

  function Power(base: nat, exponent: nat): nat {
    if exponent == 0 then 1 else base * Power(base, exponent - 1)
  }

  // `saturating_add`, `saturating_mul` and `saturating_pow` on u64

  function SatAdd(a: nat, b: nat): nat {
    Min(a + b, U64_MAX)
  }

  function SatMul(a: nat, b: nat): nat {
    Min(a * b, U64_MAX)
  }

  function SatPow(base: nat, exponent: nat): nat {
    Min(Power(base, exponent), U64_MAX)
  }

  /** `incr_with_max` */
  function IncrWithMax(current: u32, max: u32): Option<u32> {
    if max != 0 && current >= max then None
    else Some(if current < U32_MAX then current + 1 else current)
  }

  datatype Backoff =
    | Constant(delay: u32)
    | Linear(delay: u32, maxDelay: u32)
    | Exponential(minDelay: u32, maxDelay: u32, mult: u32)

  /** The delay before attempt number `attempts`, over unbounded numbers. */
  function IdealDelay(b: Backoff, attempts: nat, draw: nat): nat
    requires attempts > 0
  {
    match b
    case Constant(delay) => delay + draw
    case Linear(delay, maxDelay) => Min(maxDelay, delay * attempts + draw)
    case Exponential(minDelay, maxDelay, mult) => Min(maxDelay, Power(mult, attempts - 1) * minDelay + draw)
  }

  /** A saturated product is exact below the limit and at least the limit above it. */
  lemma SaturationIsInvisible(a: nat, b: nat, draw: nat, limit: nat)
    requires limit <= U64_MAX
    ensures Min(limit, SatAdd(SatMul(a, b), draw)) == Min(limit, a * b + draw)
  {
  }

  lemma SaturatedFactor(p: nat, b: nat, draw: nat, limit: nat)
    requires limit <= U64_MAX
    ensures Min(limit, Min(p, U64_MAX) * b + draw) == Min(limit, p * b + draw)
  {
    if p > U64_MAX && b > 0 {
      AtLeast(U64_MAX, b);
      AtLeast(p, b);
    }
  }

  lemma AtLeast(a: nat, b: nat)
    requires b > 0
    ensures a * b >= a
  {
    assert a * b == a * (b - 1) + a;
    assert a * (b - 1) >= 0;
  }

  /** The delay as `next_delay` computes it, with saturating arithmetic. */
  function Delay(b: Backoff, attempts: u32, draw: nat): nat
    requires attempts > 0
  {
    match b
    case Constant(delay) => SatAdd(delay, draw)
    case Linear(delay, maxDelay) => Min(maxDelay, SatAdd(SatMul(delay, attempts), draw))
    case Exponential(minDelay, maxDelay, mult) =>
      Min(maxDelay, SatAdd(SatMul(SatPow(mult, attempts - 1), minDelay), draw))
  }

  /** Saturation never shows: the delay is the one of the formula over unbounded numbers. */
  lemma DelayIsIdeal(b: Backoff, attempts: u32, draw: u32)
    requires attempts > 0
    ensures Delay(b, attempts, draw) == IdealDelay(b, attempts, draw)
  {
    match b
    case Constant(_) =>
    case Linear(delay, maxDelay) => SaturationIsInvisible(delay, attempts, draw, maxDelay);
    case Exponential(minDelay, maxDelay, mult) =>
      SaturationIsInvisible(SatPow(mult, attempts - 1), minDelay, draw, maxDelay);
      SaturatedFactor(Power(mult, attempts - 1), minDelay, draw, maxDelay);
  }

  /** The delay without its limit and its jitter. */
  function Base(b: Backoff, attempts: nat): nat
    requires attempts > 0
  {
    match b
    case Constant(delay) => delay
    case Linear(delay, _) => delay * attempts
    case Exponential(minDelay, _, mult) => Power(mult, attempts - 1) * minDelay
  }

  /** The policies by their steps: the first delay is the configured one, and the next one stays, grows by that much, or is
    * multiplied. The jitter comes on top, and all but a constant delay are cut off at their limit. */
  lemma DelaysGrow(b: Backoff, attempts: nat, draw: nat)
    requires attempts > 0
    ensures match b
            case Constant(delay) =>
              && Base(b, 1) == delay && Base(b, attempts + 1) == Base(b, attempts)
              && IdealDelay(b, attempts, draw) == Base(b, attempts) + draw
            case Linear(delay, maxDelay) =>
              && Base(b, 1) == delay && Base(b, attempts + 1) == Base(b, attempts) + delay
              && IdealDelay(b, attempts, draw) == Min(Base(b, attempts) + draw, maxDelay)
            case Exponential(minDelay, maxDelay, mult) =>
              && Base(b, 1) == minDelay && Base(b, attempts + 1) == mult * Base(b, attempts)
              && IdealDelay(b, attempts, draw) == Min(Base(b, attempts) + draw, maxDelay)
  {
    if b.Exponential? {
      assert Power(b.mult, 0) == 1;
      assert Power(b.mult, attempts) == b.mult * Power(b.mult, attempts - 1);
      Regroup(b.mult, Power(b.mult, attempts - 1), b.minDelay);
    }
  }

  lemma Regroup(a: nat, b: nat, c: nat)
    ensures a * b * c == a * (b * c)
  {
  }

  class ReconnectPolicy {
    const backoff: Backoff
    const maxAttempts: u32
    const jitter: u32
    var attempts: u32

    constructor (backoff: Backoff, maxAttempts: u32, jitter: u32)
      ensures this.backoff == backoff && this.maxAttempts == maxAttempts && this.jitter == jitter && attempts == 0
    {
      this.backoff, this.maxAttempts, this.jitter, attempts := backoff, maxAttempts, jitter, 0;
    }

    predicate ShouldReconnect()
      reads this
    {
      maxAttempts == 0 || attempts < maxAttempts
    }

    /** The delay before the try that follows `tries` failed ones. */
    function DelayAfter(tries: nat, draw: nat): nat
      reads this
    {
      IdealDelay(backoff, Min(attempts + tries + 1, U32_MAX), draw)
    }

    /** The attempts left before a limit stops the client. */
    function Left(): nat
      reads this
    {
      if attempts < maxAttempts then maxAttempts - attempts else 0
    }

    method ResetAttempts()
      modifies this
      ensures attempts == 0
    {
      attempts := 0;
    }

    /** `next_delay`, with `draw` from the random generator, whose range is empty for a zero jitter. */
    method NextDelay(draw: nat) returns (delay: Option<nat>)
      requires draw < jitter
      modifies this
      ensures delay.Some? <==> maxAttempts == 0 || old(attempts) < maxAttempts
      ensures delay.None? ==> attempts == old(attempts)
      ensures delay.Some? ==>
                && attempts == Min(old(attempts) + 1, U32_MAX) > 0
                && delay.value == IdealDelay(backoff, attempts, draw)
      ensures maxAttempts != 0 && old(attempts) <= maxAttempts ==> attempts <= maxAttempts
    {
      match IncrWithMax(attempts, maxAttempts) {
        case None => return None;
        case Some(next) => attempts := next;
      }
      DelayIsIdeal(backoff, attempts, draw);
      delay := Some(Delay(backoff, attempts, draw));
    }
  }

  type Error = string

  /** What one round of the loop meets: a client that closes during the sleep, and the outcome of the connection try. */
  datatype Round = Round(draw: nat, closing: bool, outcome: Result<(), Error>)

  datatype Status = Running | Connected | Failed(error: Error)

  const EXHAUSTED: Error := "Max reconnection attempts reached."
  const CLOSED: Error := "Connection(s) closed."

  /** `reconnect_with_policy`, for any number of rounds. */
  method ReconnectWithPolicy(policy: ReconnectPolicy, env: nat -> Round, rounds: nat)
    returns (status: Status, tries: nat)
    requires forall k: nat :: env(k).draw < policy.jitter
    modifies policy
    ensures forall k: nat :: k + 1 < tries ==> env(k).outcome.Err?
    ensures status == Connected ==> tries > 0 && env(tries - 1).outcome.Ok? && policy.attempts == 0
    ensures !old(policy.ShouldReconnect()) ==> status == Failed(EXHAUSTED) && tries == 0
    ensures status.Failed? && old(policy.ShouldReconnect()) ==>
              if policy.maxAttempts > 0 && tries == old(policy.Left())
              then env(tries - 1).outcome == Err(status.error) && policy.attempts == policy.maxAttempts
              else env(tries).closing && old(policy.DelayAfter(tries, env(tries).draw)) > 0 && status.error == CLOSED
    ensures forall k: nat :: k < tries ==> !env(k).closing || old(policy.DelayAfter(k, env(k).draw)) == 0
    ensures policy.maxAttempts > 0 ==> tries <= old(policy.Left())
    ensures policy.maxAttempts > 0 && rounds > old(policy.Left()) ==> status != Running
    ensures status == Running ==> tries == rounds
  {
    tries := 0;
    var delay := policy.NextDelay(env(0).draw);
    if delay.None? {
      return Failed(EXHAUSTED), 0;
    }
    while tries < rounds
      invariant delay.Some? && tries <= rounds
      invariant policy.attempts == Min(old(policy.attempts) + tries + 1, U32_MAX)
      invariant delay.value == old(policy.DelayAfter(tries, env(tries).draw))
      invariant forall k: nat :: k < tries ==> !env(k).closing || old(policy.DelayAfter(k, env(k).draw)) == 0
      invariant forall k: nat :: k < tries ==> env(k).outcome.Err?
      invariant policy.maxAttempts > 0 ==> policy.attempts == old(policy.attempts) + tries + 1 <= policy.maxAttempts
    {
      if delay.value > 0 && env(tries).closing {
        return Failed(CLOSED), tries;
      }
      var outcome := env(tries).outcome;
      tries := tries + 1;
      if outcome.Ok? {
        policy.ResetAttempts();
        return Connected, tries;
      }
      delay := policy.NextDelay(env(tries).draw);
      if delay.None? {
        return Failed(outcome.error), tries;
      }
    }
    status := Running;
  }
}
