/** Integer models of the fixed-width bit operations the renderer relies on:
    powers of two, bitwise AND / OR on naturals, and the wrap-around
    conversions of 32-bit unsigned (GLSL `uint`, C++ `uint32_t`) and signed
    (JavaScript `ToInt32`, C++ `int`) integers. */
module Bits {

  const TWO_32: int := 0x1_0000_0000
  const TWO_31: int := 0x8000_0000
  const TWO_64: int := 0x1_0000_0000_0000_0000

  function Pow2(k: nat): (r: nat)
    ensures r >= 1
  {
    if k == 0 then 1 else 2 * Pow2(k - 1)
  }

  /** Bitwise AND of two naturals, one bit at a time from the least significant. */
  function And(x: nat, y: nat): nat
    decreases x
  {
    if x == 0 || y == 0 then 0
    else 2 * And(x / 2, y / 2) + (if x % 2 == 1 && y % 2 == 1 then 1 else 0)
  }

  /** Bitwise OR of two naturals, one bit at a time from the least significant. */
  function Or(x: nat, y: nat): nat
    decreases x + y
  {
    if x == 0 then y
    else if y == 0 then x
    else 2 * Or(x / 2, y / 2) + (if x % 2 == 1 || y % 2 == 1 then 1 else 0)
  }

  /** Reduction modulo 2^32: what a `uint32_t` / GLSL `uint` keeps of an integer. */
  function U32(x: int): (r: nat)
    ensures r < TWO_32
  {
    x % TWO_32
  }

  /** Two's-complement reinterpretation as a signed 32-bit integer (ECMAScript ToInt32 on integers). */
  function Int32(x: int): (r: int)
    ensures -TWO_31 <= r < TWO_31
    ensures (r - x) % TWO_32 == 0
  {
    var u := x % TWO_32;
    if u >= TWO_31 then u - TWO_32 else u
  }

  /** A value that already fits is kept by both reductions. */
  lemma U32Small(x: int)
    requires 0 <= x < TWO_32
    ensures U32(x) == x
  {
  }

  lemma Int32Small(x: int)
    requires 0 <= x < TWO_31
    ensures Int32(x) == x
  {
  }

  /** Reducing an operand first does not change a 32-bit sum. */
  lemma U32AddU32(a: int, b: int)
    ensures U32(a + U32(b)) == U32(a + b)
  {
    DivModShift(a + b, -(b / TWO_32), TWO_32);
  }

  lemma U32OfInt32(x: int)
    ensures U32(Int32(x)) == U32(x)
  {
  }

  lemma Pow2Add(a: nat, b: nat)
    ensures Pow2(a + b) == Pow2(a) * Pow2(b)
    decreases a
  {
    if a > 0 {
      Pow2Add(a - 1, b);
    }
  }

  lemma MulAtLeast(a: int, d: int)
    requires a >= 1 && d > 0
    ensures a * d >= d
  {
  }

  /** Division and remainder are determined by any decomposition x == q * d + r with 0 <= r < d. */
  lemma DivNonneg(x: nat, d: int)
    requires d >= 1
    ensures x / d >= 0
  {
  }

  lemma DivModUnique(x: int, d: int, q: int, r: int)
    requires d > 0 && x == q * d + r && 0 <= r < d
    ensures x / d == q && x % d == r
  {
    var q', r' := x / d, x % d;
    assert (q - q') * d == r' - r;
    if q > q' {
      MulAtLeast(q - q', d);
    } else if q < q' {
      MulAtLeast(q' - q, d);
    }
  }

  /** The one-step decomposition that both AND lemmas below rest on. */
  lemma ModDouble(x: nat, p: nat)
    requires p >= 1
    ensures x % (2 * p) == 2 * ((x / 2) % p) + x % 2
  {
    var q := (x / 2) / p;
    var s := (x / 2) % p;
    assert x / 2 == q * p + s;
    assert x == q * (2 * p) + (2 * s + x % 2);
    DivModUnique(x, 2 * p, q, 2 * s + x % 2);
  }

  lemma DivDouble(x: nat, p: nat)
    requires p >= 1
    ensures x / (2 * p) == (x / 2) / p
  {
    var q := (x / 2) / p;
    var s := (x / 2) % p;
    assert x / 2 == q * p + s;
    assert x == q * (2 * p) + (2 * s + x % 2);
    DivModUnique(x, 2 * p, q, 2 * s + x % 2);
  }

  /** AND with a mask of k low one-bits keeps the value modulo 2^k. */
  lemma {:induction false} AndLowMask(x: nat, k: nat)
    ensures And(x, Pow2(k) - 1) == x % Pow2(k)
  {
    if k == 0 {
    } else if x == 0 {
    } else {
      AndLowMask(x / 2, k - 1);
      AndLowMaskStep(x, k);
    }
  }

  /** The step of AndLowMask: the low k bits of x are the low bit of x below the low k - 1 bits of x / 2. */
  lemma AndLowMaskStep(x: nat, k: nat)
    requires k > 0 && x > 0
    requires And(x / 2, Pow2(k - 1) - 1) == (x / 2) % Pow2(k - 1)
    ensures And(x, Pow2(k) - 1) == x % Pow2(k)
  {
    var p := Pow2(k - 1);
    var mask := Pow2(k) - 1;
    assert mask == 2 * (p - 1) + 1;
    assert mask / 2 == p - 1 && mask % 2 == 1;
    AndUnfold(x, mask);
    ModDouble(x, p);
  }

  lemma AndUnfold(x: nat, y: nat)
    requires x > 0 && y > 0
    ensures And(x, y) == 2 * And(x / 2, y / 2) + (if x % 2 == 1 && y % 2 == 1 then 1 else 0)
  {
  }

  /** AND with a single bit 2^k is non-zero exactly when bit k of x is set. */
  lemma {:induction false} AndSingleBit(x: nat, k: nat)
    ensures And(x, Pow2(k)) != 0 <==> (x / Pow2(k)) % 2 == 1
  {
    if k == 0 {
      if x != 0 {
        assert And(x, 1) == 2 * And(x / 2, 0) + (if x % 2 == 1 then 1 else 0);
      }
    } else if x == 0 {
    } else {
      var p := Pow2(k - 1);
      assert Pow2(k) / 2 == p && Pow2(k) % 2 == 0;
      AndSingleBit(x / 2, k - 1);
      DivDouble(x, p);
      assert And(x, Pow2(k)) == 2 * And(x / 2, p);
    }
  }

  lemma Pow2Values()
    ensures Pow2(1) == 2 && Pow2(2) == 4 && Pow2(3) == 8 && Pow2(8) == 256
    ensures Pow2(16) == 65536 && Pow2(24) == 16777216 && Pow2(31) == TWO_31 && Pow2(32) == TWO_32
  {
    assert Pow2(8) == 256;
    Pow2Add(8, 8);
    Pow2Add(16, 8);
    Pow2Add(24, 7);
    Pow2Add(16, 16);
  }

  lemma {:induction false} Pow2Monotone(a: nat, b: nat)
    requires a <= b
    ensures Pow2(a) <= Pow2(b)
    decreases b
  {
    if a < b {
      Pow2Monotone(a, b - 1);
    }
  }

  /** Every shift amount below 32 gives a power of two that fits a signed 32-bit integer. */
  lemma Pow2Below32(k: nat)
    requires k < 32
    ensures Pow2(k) <= TWO_31
  {
    Pow2Values();
    Pow2Monotone(k, 31);
  }

  /** A multiple of 2^k shares no bit with a value below 2^k. */
  lemma {:induction false} AndShiftedDisjoint(m: nat, k: nat, y: nat)
    requires y < Pow2(k)
    ensures And(m * Pow2(k), y) == 0
  {
    if k == 0 {
    } else if m == 0 || y == 0 {
    } else {
      var p := Pow2(k - 1);
      var x, h := m * Pow2(k), m * p;
      MulPow2Succ(m, k);
      assert x == 2 * h;
      assert x / 2 == h && x % 2 == 0;
      assert y / 2 < p;
      AndShiftedDisjoint(m, k - 1, y / 2);
      assert And(x, y) == 2 * And(h, y / 2);
    }
  }

  /** OR of two values without common bits is their sum. */
  lemma {:induction false} OrDisjoint(x: nat, y: nat)
    requires And(x, y) == 0
    ensures Or(x, y) == x + y
    decreases x + y
  {
    if x == 0 || y == 0 {
    } else {
      assert And(x, y) == 2 * And(x / 2, y / 2) + (if x % 2 == 1 && y % 2 == 1 then 1 else 0);
      assert And(x / 2, y / 2) == 0;
      OrDisjoint(x / 2, y / 2);
    }
  }

  /** OR of a multiple of 2^k with a value below 2^k is their sum. */
  lemma OrShifted(m: nat, k: nat, y: nat)
    requires y < Pow2(k)
    ensures Or(m * Pow2(k), y) == m * Pow2(k) + y
  {
    AndShiftedDisjoint(m, k, y);
    OrDisjoint(m * Pow2(k), y);
  }

  /** Adding a multiple of d moves the quotient by that multiple and keeps the remainder. */
  lemma DivModShift(x: int, m: int, d: int)
    requires d > 0
    ensures (x + m * d) / d == x / d + m
    ensures (x + m * d) % d == x % d
  {
    var q, r := x / d, x % d;
    assert x + m * d == (q + m) * d + r;
    DivModUnique(x + m * d, d, q + m, r);
  }

  lemma OrDouble(x: nat, y: nat)
    ensures Or(2 * x, 2 * y) == 2 * Or(x, y)
  {
    if x != 0 && y != 0 {
      assert (2 * x) / 2 == x && (2 * y) / 2 == y;
    }
  }

  lemma MulPow2Succ(a: nat, k: nat)
    requires k > 0
    ensures a * Pow2(k) == 2 * (a * Pow2(k - 1))
  {
  }

  /** Scaling both operands by 2^k scales their OR by 2^k. */
  lemma {:induction false} OrScaled(x: nat, y: nat, k: nat)
    ensures Or(x * Pow2(k), y * Pow2(k)) == Or(x, y) * Pow2(k)
  {
    if k > 0 {
      var xp, yp, o := x * Pow2(k - 1), y * Pow2(k - 1), Or(x, y);
      OrScaled(x, y, k - 1);
      MulPow2Succ(x, k);
      MulPow2Succ(y, k);
      MulPow2Succ(o, k);
      OrDouble(xp, yp);
    }
  }
}
