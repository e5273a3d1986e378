/** Powers of two, an exact integer log2, and the division facts behind masks and shifts. */
module Bits {
  /** 2^64: one more than the largest uint64. */
  const Uint64Limit: nat := 0x1_0000_0000_0000_0000

  function Pow2(k: nat): (p: nat)
    ensures p >= 1
  {
    if k == 0 then 1 else 2 * Pow2(k - 1)
  }

  predicate IsPow2(n: nat)
    decreases n
  {
    n == 1 || (n >= 2 && n % 2 == 0 && IsPow2(n / 2))
  }

  /** The base-2 logarithm of a power of two; the source computes it in floating point,
      which is exact on powers of two. */
  function Log2(n: nat): (k: nat)
    requires IsPow2(n)
    ensures Pow2(k) == n
    decreases n
  {
    if n == 1 then 0 else 1 + Log2(n / 2)
  }

  /** `x >> k` on an unsigned integer; for a uint64 and k >= 64 both sides are 0. */
  function ShiftRight(x: nat, k: nat): (r: nat)
    ensures r <= x
  {
    var p: nat := Pow2(k);
    DivBounds(x, p);
    x / p
  }

  /** `x & ((1 << k) - 1)` on an unsigned integer; for a uint64 and k >= 64 the mask is all ones
      and both sides are x. */
  function LowBits(x: nat, k: nat): (r: nat)
    ensures r < Pow2(k)
  {
    var p: nat := Pow2(k);
    x % p
  }

  lemma {:induction false} Pow2Add(a: nat, b: nat)
    ensures Pow2(a + b) == Pow2(a) * Pow2(b)
    decreases a
  {
    if a > 0 {
      Pow2Add(a - 1, b);
      assert Pow2(a + b) == 2 * Pow2(a - 1 + b);
    }
  }

  /** Masking the low `lo` bits, then the next `hi` bits of what the shift leaves, and
      shifting both away, splits `x` into three fields that recombine to `x`. */
  lemma ShiftMaskExact(x: nat, lo: nat, hi: nat)
    ensures var rest := ShiftRight(x, lo);
      ShiftRight(rest, hi) * Pow2(lo + hi) + LowBits(rest, hi) * Pow2(lo) + LowBits(x, lo) == x
  {
    var b, c := Pow2(lo), Pow2(hi);
    var q1, r1 := ShiftRight(x, lo), LowBits(x, lo);
    var q2, r2 := ShiftRight(q1, hi), LowBits(q1, hi);
    DivMod(x, b);
    DivMod(q1, c);
    Pow2Add(lo, hi);
    Distribute(q2, r2, r1, b, c);
  }

  lemma Distribute(q2: int, r2: int, r1: int, b: int, c: int)
    ensures q2 * (b * c) + r2 * b + r1 == (q2 * c + r2) * b + r1
  {
    assert q2 * (b * c) == (q2 * c) * b;
    assert (q2 * c) * b + r2 * b == (q2 * c + r2) * b;
  }

  /** Integer division rounds down: `q` copies of `d` fit in `n`, `q + 1` do not. */
  lemma DivBounds(n: nat, d: nat)
    requires d > 0
    ensures 0 <= n / d <= n
    ensures (n / d) * d <= n < (n / d + 1) * d
  {
    DivMod(n, d);
    MulAtLeast(n / d, d);
    assert (n / d + 1) * d == (n / d) * d + d;
  }

  lemma DivMod(n: nat, d: nat)
    requires d > 0
    ensures n == (n / d) * d + n % d && 0 <= n % d < d
  {
  }

  lemma MulAtLeast(q: int, d: int)
    requires q >= 0 && d >= 1
    ensures q * d >= q
  {
  }

  lemma Pow2Value64()
    ensures Pow2(64) == Uint64Limit
  {
    Pow2Value32();
    Pow2Add(32, 32);
  }

  lemma Pow2Value32()
    ensures Pow2(32) == 0x1_0000_0000
  {
    Pow2Value16();
    Pow2Add(16, 16);
  }

  lemma Pow2Value16()
    ensures Pow2(16) == 0x1_0000
  {
    assert Pow2(8) == 256;
    Pow2Add(8, 8);
  }

  /** The logarithm of a uint64 power of two is below 64. */
  lemma Log2Below64(n: nat)
    requires IsPow2(n) && n < Uint64Limit
    ensures Log2(n) < 64
  {
    var k := Log2(n);
    if k >= 64 {
      Pow2Add(64, k - 64);
      Pow2Value64();
    }
  }
}
