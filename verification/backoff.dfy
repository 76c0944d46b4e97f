/**
 * Reconnect delays: an exponential ceiling, optionally replaced by a uniform draw below it. The
 * factor is a double, so from try 1024 on it is infinite: a positive base is then over any maximum,
 * but zero times infinity is no number, and neither is the delay.
 */
module Backoff {
  import opened Prelude

  /** A value of `Math.random`. */
  type Unit = r: real | 0.0 <= r < 1.0 witness 0.0

  datatype Policy = Policy(base: nat, max: nat, fullJitter: bool)

  /** The first try whose factor is beyond the doubles. */
  const OVERFLOW_TRY := 1024

  /** The last moment a date can hold, in ms. */
  const LAST_DATE := 8_640_000_000_000_000

  /** The ceiling of try `n` is a number. */
  predicate Numeric(p: Policy, n: nat) {
    p.base != 0 || n < OVERFLOW_TRY
  }

  /** The retry time can be published: there is a delay, and it ends at a date. */
  predicate Publishable(delay: Option<nat>, now: nat) {
    delay.Some? && now + delay.value <= LAST_DATE
  }

  /** `base` doubled `n` times. */
  function Scaled(base: nat, n: nat): nat {
    if n == 0 then base else 2 * Scaled(base, n - 1)
  }

  function Ceiling(p: Policy, n: nat): nat {
    if Scaled(p.base, n) < p.max then Scaled(p.base, n) else p.max
  }

  /** The delay of a try; there is none where the ceiling is no number. */
  function Delay(p: Policy, n: nat, random: Unit): (delay: Option<nat>)
    ensures delay.Some? <==> p.base != 0 || n < 1_024
    ensures delay.Some? ==> Bounded(p, n, delay.value)
    ensures delay.Some? && !p.fullJitter ==> delay.value == Ceiling(p, n)
    ensures delay.Some? && p.fullJitter ==>
      delay.value as real <= random * (Ceiling(p, n) as real) < delay.value as real + 1.0
  {
    if !Numeric(p, n) then None
    else if p.fullJitter then Some(FloorScaled(random, Ceiling(p, n)))
    else Some(Ceiling(p, n))
  }

  function FloorScaled(random: Unit, ceiling: nat): (delay: nat)
    ensures delay <= ceiling && (0 < ceiling ==> delay < ceiling)
    ensures delay as real <= random * (ceiling as real) < delay as real + 1.0
  {
    ShareBelow(random, ceiling as real);
    var share := random * (ceiling as real);
    FloorBelow(share, ceiling);
    share.Floor
  }

  lemma FloorBelow(x: real, n: nat)
    requires 0.0 <= x <= n as real
    ensures 0 <= x.Floor <= n && (x < n as real ==> x.Floor < n) && x.Floor as real <= x < x.Floor as real + 1.0
  {
  }

  lemma ShareBelow(random: Unit, ceiling: real)
    requires 0.0 <= ceiling
    ensures 0.0 <= random * ceiling <= ceiling && (0.0 < ceiling ==> random * ceiling < ceiling)
  {
  }

  /** Never above the ceiling, and strictly below a positive one when jitter is on. */
  predicate Bounded(p: Policy, n: nat, delay: nat) {
    delay <= Ceiling(p, n) && (p.fullJitter && 0 < Ceiling(p, n) ==> delay < Ceiling(p, n))
  }

  lemma {:induction false} ScaledMonotone(base: nat, m: nat, n: nat)
    requires m <= n
    ensures Scaled(base, m) <= Scaled(base, n)
  {
    if m < n { ScaledMonotone(base, m, n - 1); }
  }

  lemma {:induction false} ScaledExceeds(base: nat, n: nat)
    requires 0 < base
    ensures n < Scaled(base, n)
  {
    if n > 0 { ScaledExceeds(base, n - 1); }
  }

  /** Each failure allows at least the wait of the one before, and never more than the maximum. */
  lemma CeilingMonotone(p: Policy, m: nat, n: nat)
    requires m <= n
    ensures Ceiling(p, m) <= Ceiling(p, n) <= p.max
  {
    ScaledMonotone(p.base, m, n);
  }

  /** With a positive base the ceiling reaches the maximum and stays there. */
  lemma CeilingReachesMax(p: Policy, n: nat)
    requires 0 < p.base && p.max <= n
    ensures Ceiling(p, n) == p.max
  {
    ScaledExceeds(p.base, n);
  }

  /** Two to the power of `n`. */
  function PowerOfTwo(n: nat): nat {
    if n == 0 then 1 else PowerOfTwo(n - 1) + PowerOfTwo(n - 1)
  }

  lemma {:induction false} ScaledIs(base: nat, n: nat)
    ensures Scaled(base, n) == base * PowerOfTwo(n)
  {
    if n > 0 {
      ScaledIs(base, n - 1);
      var power := PowerOfTwo(n - 1);
      assert base * (power + power) == base * power + base * power;
    }
  }

  /** The ceiling of a try is the base times two to the power of the try, or the maximum if that is less. */
  lemma CeilingExactly(p: Policy, n: nat)
    ensures var product := p.base * PowerOfTwo(n);
      Ceiling(p, n) == if product <= p.max then product else p.max
  {
    ScaledIs(p.base, n);
  }

  /** With the client's own defaults: 1.5 s, then twice as long each time, and 30 s from the sixth failure on. */
  lemma DefaultCeilings(n: nat)
    ensures var p := Policy(1_500, 30_000, false);
      Ceiling(p, n) == if n == 0 then 1_500 else if n == 1 then 3_000 else if n == 2 then 6_000
                       else if n == 3 then 12_000 else if n == 4 then 24_000 else 30_000
  {
    var p := Policy(1_500, 30_000, false);
    assert Scaled(1_500, 1) == 3_000 && Scaled(1_500, 2) == 6_000 && Scaled(1_500, 3) == 12_000;
    assert Scaled(1_500, 4) == 24_000 && Scaled(1_500, 5) == 48_000;
    if n >= 5 { ScaledMonotone(1_500, 5, n); }
  }
}
