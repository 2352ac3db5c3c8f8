/** Unsigned bit-vector arithmetic on naturals: powers of two and the
    MyHDL slice `sig(hi, lo)`, which yields bits hi-1 down to lo. */
module Bits {

  /** The number of values of a 32-bit word. */
  const WordLimit: nat := 0x1_0000_0000

  /** 2 to the power n. */
  function Pow2(n: nat): (r: nat)
    ensures r >= 1
  {
    if n == 0 then 1 else 2 * Pow2(n - 1)
  }

  /** The value of `x(hi, lo)` in MyHDL: the hi - lo bits from bit lo upwards. */
  function Slice(x: nat, hi: nat, lo: nat): (r: nat)
    requires lo <= hi
    ensures r < Pow2(hi - lo)
  {
    (x / Pow2(lo)) % Pow2(hi - lo)
  }

  /** The powers of two that the CPU's signal widths and field boundaries use. */
  lemma Pow2Table()
    ensures Pow2(0) == 1 && Pow2(1) == 2 && Pow2(2) == 4 && Pow2(3) == 8
    ensures Pow2(5) == 32 && Pow2(6) == 64 && Pow2(11) == 0x800 && Pow2(16) == 0x1_0000
    ensures Pow2(17) == 0x2_0000 && Pow2(21) == 0x20_0000 && Pow2(26) == 0x400_0000
    ensures Pow2(28) == 0x1000_0000 && Pow2(32) == WordLimit
  {
  }

  lemma {:induction false} Pow2Add(a: nat, b: nat)
    ensures Pow2(a + b) == Pow2(a) * Pow2(b)
  {
    if b > 0 {
      Pow2Add(a, b - 1);
    }
  }

  lemma MulAtLeast(k: nat, m: nat)
    requires k >= 1
    ensures k * m >= m
  {
    assert k * m == (k - 1) * m + m;
  }

  lemma MulMono(k: nat, j: nat, m: nat)
    requires k <= j
    ensures k * m <= j * m
  {
    assert j * m == k * m + (j - k) * m;
  }

  /** Quotient and remainder are determined by any decomposition x == q * m + r with r < m. */
  lemma DivUnique(x: nat, m: nat, q: nat, r: nat)
    requires m > 0 && r < m && x == q * m + r
    ensures x / m == q && x % m == r
  {
    var q', r' := x / m, x % m;
    assert x == q' * m + r';
    if q' > q {
      MulAtLeast(q' - q, m);
      assert false;
    } else if q' < q {
      MulAtLeast(q - q', m);
      assert false;
    }
  }

  lemma RemainderBound(r1: nat, r2: nat, a: nat, b: nat)
    requires r1 < a && r2 < b
    ensures r2 * a + r1 < a * b
  {
    MulMono(r2, b - 1, a);
    assert (b - 1) * a == a * b - a;
  }

  lemma Regroup(q2: nat, r2: nat, a: nat, b: nat)
    ensures (q2 * b + r2) * a == q2 * (a * b) + r2 * a
  {
  }

  /** Dividing by a and then by b is dividing by a * b. */
  lemma DivDiv(x: nat, a: nat, b: nat)
    requires a > 0 && b > 0
    ensures x / a / b == x / (a * b)
  {
    var q, r1 := x / a, x % a;
    var q2, r2 := q / b, q % b;
    assert x == q * a + r1;
    assert q == q2 * b + r2;
    RemainderBound(r1, r2, a, b);
    Regroup(q2, r2, a, b);
    assert q * a == q2 * (a * b) + r2 * a;
    DivUnique(x, a * b, q2, r2 * a + r1);
  }

  /** Shifting right by lo gives the slice (hi, lo) below everything from bit hi up. */
  lemma SliceStep(x: nat, hi: nat, lo: nat)
    requires lo <= hi
    ensures x / Pow2(lo) == (x / Pow2(hi)) * Pow2(hi - lo) + Slice(x, hi, lo)
  {
    var y, m := x / Pow2(lo), Pow2(hi - lo);
    assert x / Pow2(hi) == y / m by {
      Pow2Add(lo, hi - lo);
      DivDiv(x, Pow2(lo), m);
    }
    assert y == (y / m) * m + y % m;
  }

  /** A value laid out as high bits, a field of hi - lo bits at lo, and low bits
      has that field as its slice (hi, lo). */
  lemma SliceOf(x: nat, high: nat, field: nat, low: nat, hi: nat, lo: nat)
    requires lo <= hi && field < Pow2(hi - lo) && low < Pow2(lo)
    requires x == high * Pow2(hi) + field * Pow2(lo) + low
    ensures Slice(x, hi, lo) == field
  {
    Pow2Add(lo, hi - lo);
    var upper := high * Pow2(hi - lo) + field;
    Regroup(high, field, Pow2(lo), Pow2(hi - lo));
    DivUnique(x, Pow2(lo), upper, low);
    DivUnique(upper, Pow2(hi - lo), high, field);
  }
}
