/** The 24.8 fixed-point conversions done by adding a large constant and reading the bits of the sum,
    under the binary64 format and roundTiesToEven (section 4.3.1 of IEEE 754-2019). */
module FixedPoint {

  const TWO_31: int := 0x8000_0000
  const TWO_32: int := 0x1_0000_0000
  const TWO_51: int := 0x8_0000_0000_0000
  const TWO_52: int := 0x10_0000_0000_0000
  const TWO_53: int := 0x20_0000_0000_0000

  /** 3 << 43, the constant added and subtracted. */
  const MAGIC: real := 26388279066624.0
  const TWO_44: real := 17592186044416.0
  const TWO_45: real := 35184372088832.0
  /** 2^43 - 1: up to this magnitude the sum stays in the binade of the constant. */
  const RANGE: real := 8796093022207.0
  const TWO_23: real := 8388608.0

  // ---------------------------------------------------------------------
  // Powers of two
  // ---------------------------------------------------------------------

  function Pow2(k: int): (p: real)
    ensures p > 0.0
    decreases if k < 0 then -k else k
  {
    if k == 0 then 1.0 else if k > 0 then 2.0 * Pow2(k - 1) else Pow2(k + 1) / 2.0
  }

  lemma Pow2Step(k: int)
    ensures Pow2(k + 1) == 2.0 * Pow2(k)
  {
  }

  lemma {:induction false} Pow2Monotone(a: int, b: int)
    requires a <= b
    ensures Pow2(a) <= Pow2(b)
    decreases b - a
  {
    if a < b {
      Pow2Monotone(a, b - 1);
      Pow2Step(b - 1);
    }
  }

  function IntPow2(n: nat): int {
    if n == 0 then 1 else 2 * IntPow2(n - 1)
  }

  lemma {:induction false} Pow2Scaled(n: nat)
    ensures Pow2(n - 8) * 256.0 == IntPow2(n) as real
    decreases n
  {
    if n == 0 {
      Pow2Small();
    } else {
      Pow2Scaled(n - 1);
      Pow2Step(n - 9);
    }
  }

  lemma Pow2Small()
    ensures Pow2(-8) == 1.0 / 256.0 && Pow2(-9) == 1.0 / 512.0 && Pow2(-7) == 1.0 / 128.0
  {
    Pow2Step(-1); Pow2Step(-2); Pow2Step(-3); Pow2Step(-4); Pow2Step(-5);
    Pow2Step(-6); Pow2Step(-7); Pow2Step(-8); Pow2Step(-9);
  }

  lemma Times(a: real, b: real, c: real)
    requires a <= b && c >= 0.0
    ensures a * c <= b * c
  {
  }

  // ---------------------------------------------------------------------
  // binary64
  // ---------------------------------------------------------------------

  function Scaled(m: int, e: int): real { m as real * Pow2(e) }

  /** x is a finite binary64 number with significand m and exponent e. */
  predicate Represents(m: int, e: int, x: real) { -TWO_53 < m < TWO_53 && -1074 <= e <= 971 && x == Scaled(m, e) }

  ghost predicate IsBinary64(x: real) { exists m, e :: Represents(m, e, x) }

  function Distance(x: real, y: real): real { if x < y then y - x else x - y }

  /** The significand of r, normalised as the format stores it, is even. */
  ghost predicate EvenSignificand(r: real) {
    exists m, e :: Represents(m, e, r) && m % 2 == 0 && (TWO_52 <= m || m <= -TWO_52 || e == -1074)
  }

  /** r is x rounded to the nearest binary64 number, ties going to the even significand. */
  ghost predicate Rounds(x: real, r: real) {
    && IsBinary64(r)
    && (forall y :: IsBinary64(y) ==> Distance(x, r) <= Distance(x, y))
    && (forall y :: IsBinary64(y) && y != r && Distance(x, r) == Distance(x, y) ==> EvenSignificand(r))
  }

  /** b is the bit pattern of r, a normal number or zero. */
  predicate BitsOf(b: int, r: real) {
    0 <= b < TWO_32 * TWO_32 && if b == 0 then r == 0.0 else
    var exponent := (b / TWO_52) % 2048;
    var significand := TWO_52 + b % TWO_52;
    1 <= exponent <= 2046 && r == Scaled(if b < TWO_32 * TWO_31 then significand else -significand, exponent - 1075)
  }

  /** The low 32 bits read as a signed integer. */
  function Wrap32(b: int): int {
    var low := b % TWO_32;
    if low < TWO_31 then low else low - TWO_32
  }

  /** Nearest integer, ties to even. */
  function Nearest(z: real): int {
    var f := z.Floor;
    var t := z - f as real;
    if t < 0.5 then f else if t > 0.5 then f + 1 else if f % 2 == 0 then f else f + 1
  }

  // ---------------------------------------------------------------------
  // Numbers between 2^44 and 2^45 are the multiples of 1/256
  // ---------------------------------------------------------------------

  lemma MultiplesRepresented(k: int)
    requires TWO_52 <= k < TWO_53
    ensures Represents(k, -8, k as real / 256.0)
  {
    Pow2Small();
  }

  lemma LowExponentIsSmall(m: int, e: int)
    requires -TWO_53 < m < TWO_53 && e <= -9
    ensures Scaled(m, e) < TWO_44
  {
    Pow2Small();
    Pow2Monotone(e, -9);
    if m >= 0 {
      Times(m as real, TWO_53 as real - 1.0, Pow2(e));
      Times(Pow2(e), 1.0 / 512.0, TWO_53 as real - 1.0);
    } else {
      Times(m as real, 0.0, Pow2(e));
    }
  }

  lemma HighExponentIsLarge(m: int, e: int)
    requires m >= TWO_52 && e >= -7
    ensures Scaled(m, e) >= TWO_45
  {
    Pow2Small();
    Pow2Monotone(-7, e);
    Times(TWO_52 as real, m as real, Pow2(e));
    Times(1.0 / 128.0, Pow2(e), TWO_52 as real);
  }

  lemma InBinadeIsMultiple(r: real) returns (k: int)
    requires IsBinary64(r) && TWO_44 <= r < TWO_45
    ensures r == k as real / 256.0 && TWO_52 <= k < TWO_53
  {
    var m, e :| Represents(m, e, r);
    if e <= -9 {
      LowExponentIsSmall(m, e);
    }
    k := MultipleOf(m, e, r);
  }

  lemma MultipleOf(m: int, e: int, r: real) returns (k: int)
    requires e >= -8 && r == Scaled(m, e) && TWO_44 <= r < TWO_45
    ensures r == k as real / 256.0 && TWO_52 <= k < TWO_53
  {
    k := m * IntPow2(e + 8);
    ScaledIsMultiple(m, e);
    InRange(k, r);
  }

  lemma ScaledIsMultiple(m: int, e: int)
    requires e >= -8
    ensures Scaled(m, e) * 256.0 == (m * IntPow2(e + 8)) as real
  {
    Pow2Scaled(e + 8);
    ScaledInteger(m, IntPow2(e + 8), Pow2(e));
  }

  lemma InRange(k: int, r: real)
    requires r * 256.0 == k as real && TWO_44 <= r < TWO_45
    ensures r == k as real / 256.0 && TWO_52 <= k < TWO_53
  {
  }

  lemma ScaledInteger(m: int, n: int, p: real)
    requires p * 256.0 == n as real
    ensures (m as real * p) * 256.0 == (m * n) as real
  {
    assert (m as real * p) * 256.0 == m as real * (p * 256.0);
    assert m as real * n as real == (m * n) as real;
  }

  lemma NormalInBinade(m: int, e: int, k: int)
    requires TWO_52 <= k < TWO_53 && Scaled(m, e) == k as real / 256.0 && -TWO_53 < m < TWO_53 && m >= TWO_52
    ensures e == -8 && m == k
  {
    if e <= -9 {
      LowExponentIsSmall(m, e);
    } else if e >= -7 {
      HighExponentIsLarge(m, e);
    }
    Pow2Small();
  }

  lemma EvenInBinade(k: int)
    requires TWO_52 <= k < TWO_53 && EvenSignificand(k as real / 256.0)
    ensures k % 2 == 0
  {
    var m, e :| Represents(m, e, k as real / 256.0) && m % 2 == 0 && (TWO_52 <= m || m <= -TWO_52 || e == -1074);
    if m >= TWO_52 {
      NormalInBinade(m, e, k);
    } else if e == -1074 {
      LowExponentIsSmall(m, e);
    } else {
      Times(m as real, 0.0, Pow2(e));
    }
  }

  /** Well inside the binade, the rounded sum is the nearest multiple of 1/256. */
  lemma RoundsToMultiple(x: real, r: real)
    requires Rounds(x, r) && TWO_44 + 1.0 <= x <= TWO_45 - 1.0
    ensures r == Nearest(x * 256.0) as real / 256.0 && TWO_52 <= Nearest(x * 256.0) < TWO_53
  {
    var n := Nearest(x * 256.0);
    NearestBounds(x * 256.0);
    MultiplesRepresented(n);
    assert IsBinary64(n as real / 256.0);
    assert Distance(x, r) <= Distance(x, n as real / 256.0) <= 1.0 / 512.0;
    var k := InBinadeIsMultiple(r);
    NearestInteger(x, r, k);
  }

  lemma NearestBounds(z: real)
    ensures var n := Nearest(z); z - 0.5 <= n as real <= z + 0.5
  {
  }

  lemma FloorInBinade(x: real)
    requires TWO_44 + 1.0 <= x <= TWO_45 - 1.0
    ensures TWO_52 <= (x * 256.0).Floor < TWO_53 - 1
  {
  }

  lemma NoMultipleIsCloser(x: real, r: real, n: int)
    requires Rounds(x, r) && TWO_52 <= n < TWO_53
    ensures Distance(x, r) <= Distance(x, n as real / 256.0)
  {
    MultiplesRepresented(n);
    assert IsBinary64(n as real / 256.0);
  }

  lemma NearestInteger(x: real, r: real, k: int)
    requires Rounds(x, r) && TWO_44 + 1.0 <= x <= TWO_45 - 1.0 && r == k as real / 256.0 && TWO_52 <= k < TWO_53
    ensures k == Nearest(x * 256.0)
  {
    var f := (x * 256.0).Floor;
    FloorInBinade(x);
    NoMultipleIsCloser(x, r, f);
    NoMultipleIsCloser(x, r, f + 1);
    NearestOfTwo(x, k, f);
    if x * 256.0 - f as real == 0.5 {
      TieIsEven(x, k, f);
    }
  }

  lemma NearestOfTwo(x: real, k: int, f: int)
    requires f == (x * 256.0).Floor
    requires Distance(x, k as real / 256.0) <= Distance(x, f as real / 256.0)
    requires Distance(x, k as real / 256.0) <= Distance(x, (f + 1) as real / 256.0)
    ensures k == f || k == f + 1
    ensures x * 256.0 - f as real != 0.5 ==> k == Nearest(x * 256.0)
  {
  }

  lemma TieIsEven(x: real, k: int, f: int)
    requires Rounds(x, k as real / 256.0) && TWO_52 <= k < TWO_53 && (k == f || k == f + 1)
    requires TWO_52 <= f < TWO_53 - 1 && x * 256.0 - f as real == 0.5
    ensures k % 2 == 0
  {
    var other := if k == f then f + 1 else f;
    MultiplesRepresented(other);
    var y := other as real / 256.0;
    assert IsBinary64(y) && y != k as real / 256.0;
    assert Distance(x, y) == Distance(x, k as real / 256.0);
    EvenInBinade(k);
  }

  lemma NegativeScaled(m: int, e: int)
    requires m <= 0
    ensures Scaled(m, e) <= 0.0
  {
    Times(m as real, 0.0, Pow2(e));
  }

  /** The bit pattern of a multiple of 1/256 in the binade: its low 51 bits are those of the multiple. */
  lemma BitsInBinade(b: int, k: int)
    requires TWO_52 <= k < TWO_53 && BitsOf(b, k as real / 256.0)
    ensures b == 1067 * TWO_52 + (k - TWO_52)
  {
    var exponent := (b / TWO_52) % 2048;
    var significand := TWO_52 + b % TWO_52;
    if b >= TWO_32 * TWO_31 {
      NegativeScaled(-significand, exponent - 1075);
    } else {
      NormalInBinade(significand, exponent - 1075, k);
      assert b / TWO_52 < 2048;
    }
  }

  // ---------------------------------------------------------------------
  // The conversions
  // ---------------------------------------------------------------------

  /** The pattern that fixedToFloat64 assembles. */
  function PatternOf(f: int): int { (1023 + 44) * TWO_52 + TWO_51 + f }

  /** u is the double that fixedToFloat64 reads the pattern as, and d its result. */
  ghost predicate ToFloat(f: int, u: real, d: real) { BitsOf(PatternOf(f), u) && Rounds(u - MAGIC, d) }

  /** u is the rounded sum and b its pattern in fixedFromfloat64; the result is Wrap32(b). */
  ghost predicate FromFloat(d: real, u: real, b: int) { Rounds(d + MAGIC, u) && BitsOf(b, u) }

  lemma RoundsExact(x: real, r: real)
    requires Rounds(x, r) && IsBinary64(x)
    ensures r == x
  {
    assert Distance(x, r) <= Distance(x, x);
  }

  /** Reading is exact: the result is f / 256 for every 32-bit f. */
  lemma ToFloatExact(f: int, u: real, d: real)
    requires -TWO_31 <= f < TWO_31 && ToFloat(f, u, d)
    ensures d == f as real / 256.0
  {
    var b := PatternOf(f);
    var k := TWO_52 + TWO_51 + f;
    assert b / TWO_52 == 1067 && b % TWO_52 == TWO_51 + f;
    assert u == Scaled(k, -8);
    Pow2Small();
    assert u - MAGIC == f as real / 256.0;
    assert Represents(f, -8, f as real / 256.0);
    RoundsExact(u - MAGIC, d);
  }

  /** Writing keeps the nearest multiple of 1/256, modulo 2^32, for every d of magnitude up to 2^43 - 1. */
  lemma FromFloatIsNearest(d: real, u: real, b: int)
    requires -RANGE <= d <= RANGE && FromFloat(d, u, b)
    ensures Wrap32(b) == Wrap32(Nearest(d * 256.0))
  {
    var x := d + MAGIC;
    RoundsToMultiple(x, u);
    var k := Nearest(x * 256.0);
    BitsInBinade(b, k);
    assert x * 256.0 == d * 256.0 + (TWO_52 + TWO_51) as real;
    NearestShift(d * 256.0, TWO_52 + TWO_51);
    assert b == Nearest(d * 256.0) + TWO_32 * (1067 * 0x10_0000 + 0x8_0000);
    WrapShift(Nearest(d * 256.0), 1067 * 0x10_0000 + 0x8_0000);
  }

  lemma NearestShift(z: real, n: int)
    requires n % 2 == 0
    ensures Nearest(z + n as real) == Nearest(z) + n
  {
    assert (z + n as real).Floor == z.Floor + n;
  }

  lemma WrapShift(a: int, n: int)
    ensures Wrap32(a + TWO_32 * n) == Wrap32(a)
  {
  }

  /** Float-to-fixed after fixed-to-float is the identity on every 32-bit value. */
  lemma FixedRoundTrip(f: int, u: real, d: real, v: real, b: int)
    requires -TWO_31 <= f < TWO_31 && ToFloat(f, u, d) && FromFloat(d, v, b)
    ensures Wrap32(b) == f
  {
    ToFloatExact(f, u, d);
    FixedInRange(f, d);
    FromFloatIsNearest(d, v, b);
    NearestOfInteger(f);
    WrapInRange(f);
  }

  lemma FixedInRange(f: int, d: real)
    requires -TWO_31 <= f < TWO_31 && d == f as real / 256.0
    ensures d * 256.0 == f as real && -RANGE <= d <= RANGE
  {
  }

  lemma NearestOfInteger(f: int)
    ensures Nearest(f as real) == f
  {
  }

  /** Fixed-to-float after float-to-fixed errs by at most 1/512 exactly on
      [-2^23 - 1/512, 2^23 - 1/512), of all numbers. */
  lemma FloatRoundTripIff(d: real, u: real, b: int, v: real, d': real)
    requires FromFloat(d, u, b) && ToFloat(Wrap32(b), v, d')
    ensures Distance(d, d') <= 1.0 / 512.0 <==> -TWO_23 - 1.0 / 512.0 <= d < TWO_23 - 1.0 / 512.0
  {
    if -RANGE <= d <= RANGE {
      NearRoundTrip(d, u, b, v, d');
    } else {
      WrapInRange(b);
      ToFloatExact(Wrap32(b), v, d');
      FarFromFixed(Wrap32(b), d, d');
    }
  }

  /** Every 32-bit fixed value is far from a number beyond the range. */
  lemma FarFromFixed(f: int, d: real, d': real)
    requires -TWO_31 <= f < TWO_31 && d' == f as real / 256.0 && !(-RANGE <= d <= RANGE)
    ensures Distance(d, d') > 1.0
  {
  }

  lemma NearRoundTrip(d: real, u: real, b: int, v: real, d': real)
    requires -RANGE <= d <= RANGE && FromFloat(d, u, b) && ToFloat(Wrap32(b), v, d')
    ensures Distance(d, d') <= 1.0 / 512.0 <==> -TWO_23 - 1.0 / 512.0 <= d < TWO_23 - 1.0 / 512.0
  {
    FromFloatIsNearest(d, u, b);
    var z := d * 256.0;
    var n := Nearest(z);
    WrapInRange(n);
    ToFloatExact(Wrap32(b), v, d');
    NearestBounds(z);
    NearestRange(z);
  }

  lemma WrapInRange(n: int)
    ensures -TWO_31 <= Wrap32(n) < TWO_31
    ensures Wrap32(n) == n <==> -TWO_31 <= n < TWO_31
    ensures Wrap32(n) != n ==> Wrap32(n) - n >= TWO_32 || n - Wrap32(n) >= TWO_32
  {
  }

  lemma NearestRange(z: real)
    ensures -TWO_31 <= Nearest(z) < TWO_31 <==> -2147483648.5 <= z < 2147483647.5
  {
  }

  // ---------------------------------------------------------------------
  // The roundings and patterns above exist
  // ---------------------------------------------------------------------

  lemma NearestIsRounding(x: real)
    requires TWO_44 + 1.0 <= x <= TWO_45 - 1.0
    ensures Rounds(x, Nearest(x * 256.0) as real / 256.0)
  {
    var n := Nearest(x * 256.0);
    var r := n as real / 256.0;
    NearestBounds(x * 256.0);
    MultiplesRepresented(n);
    forall y | IsBinary64(y)
      ensures Distance(x, r) <= Distance(x, y)
      ensures y != r && Distance(x, r) == Distance(x, y) ==> EvenSignificand(r)
    {
      if TWO_44 <= y < TWO_45 {
        var k := InBinadeIsMultiple(y);
        NearestAgainst(x * 256.0, k);
        if n % 2 == 0 {
          assert Represents(n, -8, r);
        }
      } else {
        assert Distance(x, y) >= 1.0;
      }
    }
  }

  lemma NearestAgainst(z: real, k: int)
    ensures var n := Nearest(z);
            && Distance(z, n as real) <= Distance(z, k as real)
            && (k != n && Distance(z, n as real) == Distance(z, k as real) ==> n % 2 == 0)
  {
  }

  /** Every 32-bit value converts, and every real of magnitude up to 2^43 - 1 converts back. */
  lemma ConversionsExist(f: int, d: real)
    requires -TWO_31 <= f < TWO_31 && -RANGE <= d <= RANGE
    ensures ToFloat(f, Scaled(TWO_52 + TWO_51 + f, -8), f as real / 256.0)
    ensures exists u, b :: FromFloat(d, u, b)
  {
    var b := PatternOf(f);
    assert b / TWO_52 == 1067 && b % TWO_52 == TWO_51 + f;
    var u := Scaled(TWO_52 + TWO_51 + f, -8);
    Pow2Small();
    assert BitsOf(b, u) && u - MAGIC == f as real / 256.0;
    assert Represents(f, -8, f as real / 256.0);
    ExactIsRounding(f as real / 256.0);
    FromFloatExists(d);
  }

  lemma ExactIsRounding(x: real)
    requires IsBinary64(x)
    ensures Rounds(x, x)
  {
  }

  lemma FromFloatExists(d: real)
    requires -RANGE <= d <= RANGE
    ensures exists u, b :: FromFloat(d, u, b)
  {
    var x := d + MAGIC;
    var k := Nearest(x * 256.0);
    NearestIsRounding(x);
    RoundsToMultiple(x, k as real / 256.0);
    var b := 1067 * TWO_52 + (k - TWO_52);
    assert b / TWO_52 == 1067 && b % TWO_52 == k - TWO_52;
    Pow2Small();
    assert BitsOf(b, k as real / 256.0);
    assert FromFloat(d, k as real / 256.0, b);
  }
}
