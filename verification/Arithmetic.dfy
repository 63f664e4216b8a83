/** Non-linear facts about reals, kept apart so that no other proof needs the solver to find them. */
module Arithmetic {

  lemma CancelLe(x: real, y: real, d: real)
    requires d > 0.0 && x * d <= y * d
    ensures x <= y
  {
  }

  lemma MulLe(x: real, y: real, d: real)
    requires d >= 0.0 && x <= y
    ensures x * d <= y * d
  {
  }

  /** Division undone. */
  lemma DivMul(x: real, d: real)
    requires d != 0.0
    ensures (x / d) * d == x
  {
  }

  /** A quotient is the number that, multiplied back, gives the dividend. */
  lemma DivIs(x: real, d: real, q: real)
    requires d > 0.0 && q * d == x
    ensures x / d == q
  {
  }

  lemma DivLe(x: real, y: real, d: real)
    requires d > 0.0 && x <= y
    ensures x / d <= y / d
  {
  }

  /** A share of a whole lies in [0, 1]. */
  lemma RatioBounds(x: nat, n: nat)
    requires x <= n && n > 0
    ensures 0.0 <= x as real / n as real <= 1.0
    ensures x as real / n as real == 1.0 <==> x == n
    ensures (x as real / n as real) * n as real == x as real
  {
  }
}
