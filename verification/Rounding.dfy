/** Math.round and the jittered delays built on it. */
module Rounding {

  // Math.round: to the nearest integer, halves up.
  function Round(x: real): int
  {
    (x + 0.5).Floor
  }

  lemma RoundNear(x: real)
    ensures x - 0.5 < Round(x) as real <= x + 0.5
  {
  }

  function Min(a: real, b: real): real
  {
    if a <= b then a else b
  }

  function Pow2(n: nat): (p: nat)
    ensures p >= 1
  {
    if n == 0 then 1 else 2 * Pow2(n - 1)
  }

  // A share of most, by a random number in [0, 1).
  function Jitter(most: real, random: real): real
  {
    most * random
  }

  lemma JitterRange(most: real, random: real)
    requires most >= 0.0 && 0.0 <= random < 1.0
    ensures 0.0 <= Jitter(most, random) <= most
  {
    NonNegative(most, random);
    NonNegative(most, 1.0 - random);
    assert most * (1.0 - random) == most - most * random;
  }

  lemma NonNegative(x: real, y: real)
    requires x >= 0.0 && y >= 0.0
    ensures x * y >= 0.0
  {
  }

  // A delay and up to a fifth of it again.
  function Jittered(delay: real, random: real): int
  {
    Round(delay + Jitter(delay * 0.2, random))
  }

  lemma JitterBounds(delay: real, random: real)
    requires delay >= 0.0 && 0.0 <= random < 1.0
    ensures delay - 0.5 < Jittered(delay, random) as real <= 1.2 * delay + 0.5
  {
    JitterRange(delay * 0.2, random);
    RoundNear(delay + Jitter(delay * 0.2, random));
  }

  // Of whole seconds the bounds are exact.
  lemma JitterOfSeconds(seconds: nat, random: real)
    requires 0.0 <= random < 1.0
    ensures 1000 * seconds <= Jittered(1000.0 * seconds as real, random) <= 1200 * seconds
  {
    var delay := 1000.0 * seconds as real;
    JitterBounds(delay, random);
    assert delay == (1000 * seconds) as real && 1.2 * delay == (1200 * seconds) as real;
  }
}
