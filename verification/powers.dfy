/**
 Natural-number powers of a real base, used to state how an upgrade's price
 grows after repeated purchases.
 */
module Powers {

  /** `b` raised to the `n`-th power. */
  function Pow(b: real, n: nat): real
  {
    if n == 0 then 1.0 else b * Pow(b, n - 1)
  }

  /** Powers of a positive base are positive. */
  lemma {:induction false} PowPositive(b: real, n: nat)
    requires b > 0.0
    ensures Pow(b, n) > 0.0
  {
    if n > 0 {
      PowPositive(b, n - 1);
      assert b * Pow(b, n - 1) > 0.0;
    }
  }

  /** Powers of a base of at least one are at least one. */
  lemma {:induction false} PowAtLeastOne(b: real, n: nat)
    requires b >= 1.0
    ensures Pow(b, n) >= 1.0
  {
    if n > 0 {
      PowAtLeastOne(b, n - 1);
      assert b * Pow(b, n - 1) >= 1.0 * Pow(b, n - 1);
    }
  }
}
