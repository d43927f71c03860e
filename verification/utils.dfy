/** Scalar coercion and the accuracy code to text mapping of utils.go. */
module Utils {
  import opened SensorTypes

  function Pow2(k: nat): (r: nat)
    ensures r >= 1
  {
    if k == 0 then 1 else 2 * Pow2(k - 1)
  }

  /** The number of binary digits of `n` (0 for 0). */
  function BitLength(n: nat): nat {
    if n == 0 then 0 else 1 + BitLength(n / 2)
  }

  lemma {:induction false} BitLengthBound(n: nat)
    ensures n < Pow2(BitLength(n))
  {
    if n > 0 {
      BitLengthBound(n / 2);
    }
  }

  lemma {:induction false} BitLengthAtMost(n: nat, m: nat)
    requires n < Pow2(m)
    ensures BitLength(n) <= m
  {
    if n > 0 {
      BitLengthAtMost(n / 2, m - 1);
    }
  }

  /** 2^53: every integer of at most this magnitude is a float64. */
  const MaxExactInt: int := 0x20_0000_0000_0000

  lemma Pow2Of53()
    ensures Pow2(53) == MaxExactInt
  {
    assert Pow2(10) == 0x400;
    assert Pow2(20) == 0x10_0000;
    assert Pow2(30) == 0x4000_0000;
    assert Pow2(40) == 0x100_0000_0000;
    assert Pow2(50) == 0x4_0000_0000_0000;
  }

  /** How many low-order bits a float64 cannot hold for the magnitude `n`. */
  function DroppedBits(n: nat): nat {
    if BitLength(n) <= 53 then 0 else BitLength(n) - 53
  }

  /**
    The magnitude `n` rounded to the nearest value with at most 53 significant
    bits, ties to even: IEEE 754 round-to-nearest, which is what Go's
    `float64(v)` does for an integer `v`. The error is at most half a unit in
    the last kept place.
   */
  function RoundToFloat64(n: nat): (r: nat)
    ensures r % Pow2(DroppedBits(n)) == 0
    ensures 2 * (if r >= n then r - n else n - r) <= Pow2(DroppedBits(n))
    ensures 2 * (if r >= n then r - n else n - r) == Pow2(DroppedBits(n)) ==> (r / Pow2(DroppedBits(n))) % 2 == 0
    ensures n % Pow2(DroppedBits(n)) == 0 ==> r == n
  {
    var k := DroppedBits(n);
    if k == 0 then n
    else
      var u := Pow2(k);
      var up := 2 * (n % u) > u || (2 * (n % u) == u && (n / u) % 2 == 1);
      RoundStep(n, u, up);
      if up then n - n % u + u else n - n % u
  }

  /**
    One rounding step at unit `u`: down to the multiple of `u` below `n`, or
    up to the next one, is within half a unit, and a tie lands on an even
    multiple.
   */
  lemma RoundStep(n: nat, u: nat, up: bool)
    requires u > 0
    requires up == (2 * (n % u) > u || (2 * (n % u) == u && (n / u) % 2 == 1))
    ensures var r := if up then n - n % u + u else n - n % u;
      && r >= 0 && r % u == 0
      && 2 * (if r >= n then r - n else n - r) <= u
      && (2 * (if r >= n then r - n else n - r) == u ==> (r / u) % 2 == 0)
      && (n % u == 0 ==> r == n)
  {
    var q, m := n / u, n % u;
    var below := n - m;
    assert below == q * u;
    DivModUnique(below, u, q, 0);
    assert below + u == (q + 1) * u;
    DivModUnique(below + u, u, q + 1, 0);
  }

  /** Euclidean division has exactly one quotient and remainder. */
  lemma DivModUnique(x: int, u: int, q: int, m: int)
    requires u > 0 && 0 <= m < u && x == q * u + m
    ensures x / u == q && x % u == m
  {
    var q', m' := x / u, x % u;
    assert x == q' * u + m';
    if q' < q {
      MulAtLeast(q - q', u);
      assert false;
    } else if q' > q {
      MulAtLeast(q' - q, u);
      assert false;
    }
  }

  lemma {:induction false} MulAtLeast(a: int, u: int)
    requires a >= 1 && u > 0
    ensures a * u >= u
    decreases a
  {
    if a > 1 {
      MulAtLeast(a - 1, u);
      assert a * u == (a - 1) * u + u;
    }
  }

  /** Go's conversion `float64(i)` of a 64-bit integer. */
  function IntToFloat64(i: Int64): (r: real)
    ensures (i >= 0 ==> r >= 0.0) && (i <= 0 ==> r <= 0.0)
  {
    if i >= 0 then RoundToFloat64(i) as real else -(RoundToFloat64(-(i as int)) as real)
  }

  /** `|i|` as an unbounded natural (in Go, `-i` overflows for the least `int64`). */
  function Magnitude(i: Int64): nat {
    if i >= 0 then i as int else -(i as int)
  }

  /**
    `float64(i)` has the sign of `i`, and its magnitude is the multiple of the
    last kept place `u` nearest to `|i|`; of two equally near multiples it is
    the even one.
   */
  lemma IntToFloat64Nearest(i: Int64)
    ensures var u := Pow2(DroppedBits(Magnitude(i)));
      var m := if i >= 0 then IntToFloat64(i) else -IntToFloat64(i);
      var e := if m >= Magnitude(i) as real then m - Magnitude(i) as real else Magnitude(i) as real - m;
      && m == m.Floor as real && m.Floor % u == 0
      && 2.0 * e <= u as real
      && (2.0 * e == u as real ==> (m.Floor / u) % 2 == 0)
  {
  }

  /**
    2^53 + 1 is the least positive `int64` a float64 cannot hold: it lies
    halfway between 2^53 and 2^53 + 2 and converts to the even neighbour 2^53.
   */
  lemma IntToFloat64RoundsAbove53()
    ensures IntToFloat64(MaxExactInt + 1) == MaxExactInt as real
  {
    var n := MaxExactInt + 1;
    Pow2Of53();
    BitLengthAtMost(n, 54);
    assert BitLength(n) == 54 by {
      if BitLength(n) <= 53 {
        BitLengthBound(n);
        Pow2Monotone(BitLength(n), 53);
      }
    }
    assert Pow2(DroppedBits(n)) == 2;
  }

  /** Integers up to 2^53 in magnitude are converted exactly. */
  lemma RoundExact(n: nat)
    requires n <= MaxExactInt
    ensures RoundToFloat64(n) == n
  {
    Pow2Of53();
    if n < MaxExactInt {
      BitLengthAtMost(n, 53);
    } else {
      assert n == 2 * Pow2(52);
      BitLengthAtMost(n, 54);
      assert BitLength(n) == 54 by {
        if BitLength(n) <= 53 {
          BitLengthBound(n);
          Pow2Monotone(BitLength(n), 53);
        }
      }
    }
  }

  lemma {:induction false} Pow2Monotone(a: nat, b: nat)
    requires a <= b
    ensures Pow2(a) <= Pow2(b)
  {
    if a < b {
      Pow2Monotone(a, b - 1);
    }
  }

  lemma IntToFloat64Exact(i: Int64)
    requires -MaxExactInt <= i <= MaxExactInt
    ensures IntToFloat64(i) == i as real
  {
    if i >= 0 {
      RoundExact(i);
    } else {
      RoundExact(-(i as int));
    }
  }

  /** The dynamic types getFloat64 recognises. */
  predicate IsNumeric(v: Scalar) {
    v.Float64? || v.Float32? || v.GoInt? || v.GoInt64?
  }

  /**
    `getFloat64`: a float64 comes back unchanged, a float32 is widened
    (exactly, as IEEE 754 widening always is), an `int` or `int64` is rounded
    to the nearest float64; anything else is 0. It never fails.
   */
  function GetFloat64(v: Scalar): (r: real)
    ensures v.Float64? || v.Float32? ==> r == v.f
    ensures (v.GoInt? || v.GoInt64?) ==> r == IntToFloat64(v.i)
    ensures !IsNumeric(v) ==> r == 0.0
  {
    match v
    case Float64(f) => f
    case Float32(f) => f
    case GoInt(i) => IntToFloat64(i)
    case GoInt64(i) => IntToFloat64(i)
    case _ => 0.0
  }

  /** An integer of magnitude at most 2^53 is widened without loss. */
  lemma GetFloat64WidensExactly(v: Scalar)
    requires v.GoInt? || v.GoInt64?
    requires -MaxExactInt <= v.i <= MaxExactInt
    ensures GetFloat64(v) == v.i as real
  {
    IntToFloat64Exact(v.i);
  }

  /** Go's `int` and `int64` are the same width, so the two integer cases agree. */
  lemma IntCasesAgree(i: Int64)
    ensures GetFloat64(GoInt(i)) == GetFloat64(GoInt64(i))
  {
  }

  const Unreliable: string := "不可靠"
  const LowAccuracy: string := "低精度"
  const MediumAccuracy: string := "中等精度"
  const HighAccuracy: string := "高精度"
  const UnknownAccuracy: string := "未知"

  /** The four descriptions of a known accuracy code, indexed by that code. */
  const KnownAccuracies: seq<string> := [Unreliable, LowAccuracy, MediumAccuracy, HighAccuracy]

  /**
    `getAccuracyDescription`: codes 0 to 3 get their own description, every
    other integer gets "未知" (unknown).
   */
  function AccuracyDescription(a: int): (r: string)
    ensures 0 <= a <= 3 ==> r == KnownAccuracies[a]
    ensures !(0 <= a <= 3) ==> r == UnknownAccuracy
    ensures r in KnownAccuracies || r == UnknownAccuracy
  {
    if a == 0 then Unreliable
    else if a == 1 then LowAccuracy
    else if a == 2 then MediumAccuracy
    else if a == 3 then HighAccuracy
    else UnknownAccuracy
  }

  /** The five descriptions are pairwise distinct, so codes 0..3 map injectively. */
  lemma AccuracyDescriptionInjective(a: int, b: int)
    requires 0 <= a <= 3 && 0 <= b <= 3
    requires AccuracyDescription(a) == AccuracyDescription(b)
    ensures a == b
  {
    assert Unreliable[0] != LowAccuracy[0] && LowAccuracy[0] != MediumAccuracy[0];
    assert MediumAccuracy[0] != HighAccuracy[0] && Unreliable[0] != MediumAccuracy[0];
    assert Unreliable[0] != HighAccuracy[0] && LowAccuracy[0] != HighAccuracy[0];
  }

  /** No known code is described as unknown. */
  lemma KnownIsNotUnknown(a: int)
    requires 0 <= a <= 3
    ensures AccuracyDescription(a) != UnknownAccuracy
  {
    assert UnknownAccuracy[0] !in {Unreliable[0], LowAccuracy[0], MediumAccuracy[0], HighAccuracy[0]};
  }
}
