/** Facts about products and quotients of reals, stated one at a time so that
    proofs that need one do not search for it. */
module Reals {
  lemma {:induction false} MulNonNegative(a: real, b: real)
    requires 0.0 <= a && 0.0 <= b
    ensures 0.0 <= a * b
  {
  }

  function Times(a: real, b: real): real {
    a * b
  }

  lemma {:induction false} TimesPositive(a: real, b: real)
    requires 0.0 < a && 0.0 < b
    ensures 0.0 < Times(a, b)
  {
  }

  lemma {:induction false} MulPositive(a: real, b: real)
    requires 0.0 < a && 0.0 < b
    ensures 0.0 < a * b
  {
  }

  lemma {:induction false} MulMonotone(a: real, b: real, c: real)
    requires a <= b && 0.0 <= c
    ensures a * c <= b * c
  {
    MulNonNegative(b - a, c);
    assert (b - a) * c == b * c - a * c;
  }

  lemma {:induction false} MulAssociates(a: real, b: real, c: real)
    ensures (a * b) * c == a * (b * c)
  {
  }

  lemma {:induction false} MulDistributes(a: real, b: real, c: real)
    ensures c * (a + b) == c * a + c * b
    ensures (a + b) * c == a * c + b * c
  {
  }

  lemma {:induction false} MulZeroIff(a: real, b: real)
    ensures a * b == 0.0 <==> a == 0.0 || b == 0.0
  {
  }

  lemma {:induction false} DivNonNegative(a: real, c: real)
    requires 0.0 <= a && 0.0 < c
    ensures 0.0 <= a / c
  {
  }

  lemma {:induction false} DivSum(a: real, b: real, c: real)
    requires c != 0.0
    ensures (a + b) / c == a / c + b / c
  {
  }

  lemma {:induction false} DivAtMost(a: real, b: real, c: real)
    requires 0.0 < c && a <= b * c
    ensures a / c <= b
  {
  }

  lemma {:induction false} MulDiv(a: real, b: real, c: real)
    requires c != 0.0
    ensures a * (b / c) == (a * b) / c
  {
  }
}
