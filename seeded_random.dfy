/** One step of the Park-Miller "minimal standard" Lehmer generator, as used
    to derive every per-chunk decision of the world generator.

    The integer part is exact in JavaScript (every product stays below
    2^53, so doubles hold it exactly); the final division is modelled with
    ideal real arithmetic. */
module SeededRandom {

  /** The modulus 2^31 - 1 (a Mersenne prime). */
  const Modulus: int := 2147483647
  /** The multiplier 7^5. */
  const Multiplier: int := 16807
  /** The multiplicative inverse of Multiplier modulo Modulus. */
  const InverseMultiplier: int := 1407677000

  /** JavaScript's `a % 2147483647`: the remainder truncates toward zero,
      so it takes the sign of the dividend (unlike Dafny's Euclidean `%`). */
  function JsRem(a: int): (r: int)
    ensures -Modulus < r < Modulus
    ensures a >= 0 ==> r >= 0
    ensures a <= 0 ==> r <= 0
    ensures (a - r) % Modulus == 0
  {
    if a >= 0 then a % Modulus else -((-a) % Modulus)
  }

  /** The state after the seed is reduced and lifted out of the non-positive
      range. It lands in [1, Modulus - 1] for every seed except those whose
      truncated remainder is -(Modulus - 1); those give 0. */
  function NormalizedSeed(seed: int): (s: int)
    ensures 0 <= s <= Modulus - 1
    ensures seed >= 0 ==> 1 <= s
    ensures s == 0 <==> JsRem(seed) == -(Modulus - 1)
  {
    var s := JsRem(seed);
    if s <= 0 then s + (Modulus - 1) else s
  }

  /** Multiplying by 16807 never sends a non-zero residue to zero: a multiple
      of the modulus times the inverse would again be a multiple of it. */
  lemma MultiplierKeepsNonZero(s: int)
    requires 0 <= s <= Modulus - 1
    ensures (s * Multiplier) % Modulus == 0 <==> s == 0
  {
    var q := (s * Multiplier) / Modulus;
    var r := (s * Multiplier) % Modulus;
    assert Multiplier * InverseMultiplier == 1 + 11017 * Modulus;
    assert r * InverseMultiplier == s + (s * 11017 - q * InverseMultiplier) * Modulus;
  }

  /** The generator's state after one multiply-mod step. */
  function NextState(seed: int): (s: int)
    ensures 0 <= s <= Modulus - 1
    ensures s == 0 <==> NormalizedSeed(seed) == 0
    ensures (s - NormalizedSeed(seed) * Multiplier) % Modulus == 0
  {
    var n := NormalizedSeed(seed);
    MultiplierKeepsNonZero(n);
    JsRem(n * Multiplier)
  }

  /** seededRandom(seed): the state mapped onto [0, 1). */
  function Random(seed: int): (r: real)
    ensures r < 1.0
    ensures NormalizedSeed(seed) != 0 ==> 0.0 <= r
    ensures seed >= 0 ==> 0.0 <= r < 1.0
    ensures NormalizedSeed(seed) == 0 ==> r < 0.0
  {
    (NextState(seed) - 1) as real / (Modulus - 1) as real
  }

  /** A difference of two states that 16807 maps to a multiple of the
      modulus is zero. */
  lemma MultiplierCancels(d: int, k: int)
    requires -Modulus < d < Modulus
    requires d * Multiplier == k * Modulus
    ensures d == 0
  {
    assert Multiplier * InverseMultiplier == 1 + 11017 * Modulus;
    assert d == (k * InverseMultiplier - d * 11017) * Modulus;
  }

  /** Two seeds give the same value exactly when they normalise to the same
      state: one step of the generator is a bijection on its states. For
      seeds >= 0 that means they agree modulo 2^31 - 1, or one is congruent
      to 0 and the other to -1: the lift adds 2^31 - 2, not 2^31 - 1, so a
      remainder of 0 lands on the state of a remainder of 2^31 - 2. */
  lemma RandomInjective(a: int, b: int)
    ensures Random(a) == Random(b) <==> NormalizedSeed(a) == NormalizedSeed(b)
  {
    if Random(a) == Random(b) {
      var na, nb := NormalizedSeed(a), NormalizedSeed(b);
      var qa, qb := (na * Multiplier) / Modulus, (nb * Multiplier) / Modulus;
      assert (na - nb) * Multiplier == (qa - qb) * Modulus by {
        assert NextState(a) == NextState(b);
        assert na * Multiplier == qa * Modulus + NextState(a);
        assert nb * Multiplier == qb * Modulus + NextState(b);
      }
      MultiplierCancels(na - nb, qa - qb);
    }
  }

  /** The collision the lift causes: seeds 0 and 2147483647 give the same
      value as seed 2147483646. */
  lemma LiftCollides()
    ensures NormalizedSeed(0) == NormalizedSeed(2147483646) == NormalizedSeed(2147483647)
    ensures Random(0) == Random(2147483646) == Random(2147483647)
  {
    RandomInjective(0, 2147483646);
    RandomInjective(2147483647, 2147483646);
  }

  /** The one negative-seed case that escapes [0, 1): the seed normalises to
      0 and the result is -1 / 2147483646. */
  lemma NegativeEdgeSeedIsNegative()
    ensures Random(-2147483646) < 0.0
    ensures Random(-2147483646) == -1.0 / 2147483646.0
  {
    assert NormalizedSeed(-2147483646) == 0;
  }
}
