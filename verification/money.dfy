/** Money arithmetic of the calculator over exact reals: the two-decimal rounding
    helper round2, Math.ceil to whole cents, and the two-decimal text that
    Number.prototype.toFixed(2) writes into an output (read back as whole cents). */
module Money {

  /** A whole number of cents as an amount. */
  function FromCents(k: int): real {
    k as real / 100.0
  }

  /** Math.round: the nearest integer, a tie going up (toward +infinity). */
  function MathRound(y: real): (k: int)
    ensures y - 0.5 < k as real <= y + 0.5
  {
    (y + 0.5).Floor
  }

  /** Math.ceil: the least integer not below y. */
  function MathCeil(y: real): (k: int)
    ensures y <= k as real < y + 1.0
  {
    -((-y).Floor)
  }

  /** round2 (src/scripts.js:22): the nearest whole-cent amount, a tie going up. */
  function Round2Cents(n: real): (k: int)
    ensures n - 0.005 < FromCents(k) <= n + 0.005
  {
    MathRound(n * 100.0)
  }

  /** An amount that is a whole number of cents. */
  ghost predicate WholeCents(x: real) {
    exists k: int :: FromCents(k) == x
  }

  /** Every whole number of cents is a whole-cent amount. */
  lemma CentsAreWhole(k: int)
    ensures WholeCents(FromCents(k))
  {
  }

  function Round2(n: real): (r: real)
    ensures WholeCents(r)
    ensures n - 0.005 < r <= n + 0.005
  {
    CentsAreWhole(Round2Cents(n));
    FromCents(Round2Cents(n))
  }

  /** Rounding up to cents, as line 459 does: the least whole-cent amount not below n. */
  function CeilCents(n: real): (k: int)
    ensures n <= FromCents(k) < n + 0.01
    ensures forall j :: FromCents(j) >= n ==> j >= k
  {
    MathCeil(n * 100.0)
  }

  /** Math.ceil(n * 100) / 100 (line 459): the least whole-cent amount not below n. */
  function CeilToCents(n: real): (r: real)
    ensures WholeCents(r)
    ensures n <= r < n + 0.01
    ensures forall k :: FromCents(k) >= n ==> FromCents(k) >= r
  {
    CentsAreWhole(CeilCents(n));
    FromCents(CeilCents(n))
  }

  /** The two-decimal text of a number, read back: the nearest whole cent, a tie going away from
      zero (toFixed rounds the magnitude and then restores the sign). */
  function ToFixed2Cents(x: real): (k: int)
    ensures x >= 0.0 ==> x - 0.005 < FromCents(k) <= x + 0.005
    ensures x < 0.0 ==> x - 0.005 <= FromCents(k) < x + 0.005
  {
    if x < 0.0 then -MathRound(-x * 100.0) else MathRound(x * 100.0)
  }

  /** Displaying an amount that already is whole cents does not change it. */
  lemma FixedOfCents(k: int)
    ensures ToFixed2Cents(FromCents(k)) == k
  {
  }

  /** round2 of a whole-cent amount is that amount. */
  lemma Round2OfCents(k: int)
    ensures Round2Cents(FromCents(k)) == k
  {
  }

  /** toFixed(2) and round2 agree except on a negative amount that lies exactly
      halfway between two cents. */
  lemma FixedAgreesWithRound2(x: real)
    requires x >= 0.0 || FromCents(Round2Cents(x)) != x + 0.005
    ensures ToFixed2Cents(x) == Round2Cents(x)
  {
  }

  /** The one place they differ: -0.005 shows as -0.01 but round2 gives 0. */
  lemma FixedAwayFromZeroOnNegativeTie()
    ensures ToFixed2Cents(-0.005) == -1 && Round2Cents(-0.005) == 0
  {
  }

  /** Ceiling to cents is monotone. */
  lemma CeilCentsMonotone(a: real, b: real)
    requires a <= b
    ensures CeilCents(a) <= CeilCents(b)
  {
  }

  lemma FromCentsAdd(j: int, k: int)
    ensures FromCents(j) + FromCents(k) == FromCents(j + k)
  {
  }
}
