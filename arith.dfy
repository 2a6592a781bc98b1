/** Integer facts the decimal codec rests on: powers of ten and the
    uniqueness of Euclidean division, stated in small steps so that the
    solver never has to find a nonlinear argument on its own. */
module Arith {

  /** 10^k */
  function Pow10(k: nat): (p: nat)
    ensures p > 0
  {
    if k == 0 then 1 else 10 * Pow10(k - 1)
  }

  /** 2^k */
  function Pow2(k: nat): (p: nat)
    ensures p > 0
  {
    if k == 0 then 1 else 2 * Pow2(k - 1)
  }

  lemma MulAtLeast(d: int, k: int)
    requires d > 0 && k >= 1
    ensures d * k >= d
  {}

  lemma MulMono(a: int, x: int, y: int)
    requires a >= 0 && x <= y
    ensures a * x <= a * y
  {}

  /** Quotient and remainder are the only pair that rebuilds x. */
  lemma DivModUnique(x: int, d: int, q: int, r: int)
    requires d > 0 && 0 <= r < d && x == d * q + r
    ensures x / d == q && x % d == r
  {
    var q', r' := x / d, x % d;
    assert x == d * q' + r';
    assert d * q - d * q' == d * (q - q');
    assert d * q' - d * q == d * (q' - q);
    if q' < q { MulAtLeast(d, q - q'); assert false; }
    if q < q' { MulAtLeast(d, q' - q); assert false; }
  }

  lemma DivModFacts(v: int, a: int)
    requires a > 0 && v >= 0
    ensures v == a * (v / a) + v % a && 0 <= v % a < a && v / a >= 0
  {}

  lemma Regroup(a: int, b: int, q: int, r2: int, r: int)
    ensures a * (b * q + r2) + r == (a * b) * q + (a * r2 + r)
  {}

  lemma MixedRadixBound(a: int, b: int, r2: int, r: int)
    requires a > 0 && 0 <= r2 < b && 0 <= r < a
    ensures 0 <= a * r2 + r < a * b
  {
    MulMono(a, r2, b - 1);
  }

  /** Dividing by a and then by b is dividing by a * b. */
  lemma DivDiv(v: nat, a: nat, b: nat)
    requires a > 0 && b > 0
    ensures (v / a) / b == v / (a * b)
  {
    var q, r := v / a, v % a;
    DivModFacts(v, a);
    var q2, r2 := q / b, q % b;
    DivModFacts(q, b);
    Regroup(a, b, q2, r2, r);
    MixedRadixBound(a, b, r2, r);
    DivModUnique(v, a * b, q2, a * r2 + r);
  }

  /** The remainder modulo 10 * p splits into the last decimal digit and the
      remainder modulo p of the rest. */
  lemma ModSplit(w: nat, p: nat)
    requires p > 0
    ensures w % (10 * p) == (w / 10 % p) * 10 + w % 10
  {
    var q, r := w / 10, w % 10;
    DivModFacts(w, 10);
    var q2, r2 := q / p, q % p;
    DivModFacts(q, p);
    Regroup(10, p, q2, r2, r);
    MixedRadixBound(10, p, r2, r);
    DivModUnique(w, 10 * p, q2, 10 * r2 + r);
  }

  /** The last m digits of w are its last digit below the last m - 1 digits
      of w / 10. */
  lemma ModPow10Split(w: nat, m: nat)
    requires m >= 1
    ensures w % Pow10(m) == (w / 10 % Pow10(m - 1)) * 10 + w % 10
  {
    ModSplit(w, Pow10(m - 1));
  }

  /** The number the last m decimal digits of w spell, built digit by digit. */
  function LastDigits(w: nat, m: nat): nat
  {
    if m == 0 then 0 else LastDigits(w / 10, m - 1) * 10 + w % 10
  }

  /** Appending the last digit d of w to the last m - 1 digits of w / 10. */
  lemma LastDigitsStep(x: nat, a: nat, d: nat, w: nat, m: nat)
    requires m >= 1 && x == a * 10 + d && a == LastDigits(w / 10, m - 1) && d == w % 10
    ensures x == LastDigits(w, m)
  {}

  /** The last m digits of w are w modulo 10^m. */
  lemma {:induction false} LastDigitsIsMod(w: nat, m: nat)
    ensures LastDigits(w, m) == w % Pow10(m)
  {
    if m > 0 {
      LastDigitsIsMod(w / 10, m - 1);
      ModPow10Split(w, m);
    }
  }

  /** Scaling a number with an appended digit. */
  lemma ShiftDigit(a: int, d: int, p: int)
    ensures (a * 10 + d) * p == a * (10 * p) + d * p
  {}

  /** Appending a decimal digit d to x: the quotient by 10 gives x back. */
  lemma AppendDigit(x: nat, d: nat)
    requires d < 10
    ensures (10 * x + d) / 10 == x && (10 * x + d) % 10 == d
  {
    DivModUnique(10 * x + d, 10, x, d);
  }
}
