/** The f32 <-> f16 storage conversion, on bit patterns. */
module HalfFloat {

  // A pattern is a sign and the remaining 31 (15) bits.  Bit operations on those
  // are written with division, remainder and repeated doubling; `|` of disjoint
  // fields is addition.  Values are integers in units of 2^-149, the least f32
  // subnormal, so every f32 and f16 magnitude is exact.

  /** t << n. */
  function Shl(t: nat, n: nat): nat
    decreases n, t
  {
    if n == 0 then t else Shl(t + t, n - 1)
  }

  lemma ShlStep(t: nat, n: nat)
    ensures Shl(t, n + 1) == 2 * Shl(t, n)
  {
    ShlAdd(t, t, n);
  }

  /** x >> n and the bits it shifts out. */
  function ShiftRight(x: nat, n: nat): nat
  {
    if n == 0 then x else ShiftRight(x / 2, n - 1)
  }

  function LowBits(x: nat, n: nat): nat
  {
    if n == 0 then 0 else x % 2 + 2 * LowBits(x / 2, n - 1)
  }

  lemma {:induction false} SplitBits(x: nat, n: nat)
    ensures x == Shl(ShiftRight(x, n), n) + LowBits(x, n)
    ensures LowBits(x, n) < Shl(1, n)
  {
    if n > 0 {
      SplitBits(x / 2, n - 1);
      ShlStep(ShiftRight(x / 2, n - 1), n - 1);
      ShlStep(1, n - 1);
    }
  }

  lemma {:induction false} ShlAdd(a: nat, b: nat, n: nat)
    ensures Shl(a + b, n) == Shl(a, n) + Shl(b, n)
    decreases n
  {
    if n > 0 {
      ShlAdd(a + a, b + b, n - 1);
      assert a + b + (a + b) == a + a + (b + b);
    }
  }

  lemma {:induction false} ShlShl(t: nat, a: nat, b: nat)
    ensures Shl(Shl(t, a), b) == Shl(t, a + b)
    decreases a
  {
    if a > 0 { ShlShl(t + t, a - 1, b); }
  }

  lemma {:induction false} ShlOrder(a: nat, b: nat, n: nat)
    ensures a < b <==> Shl(a, n) < Shl(b, n)
    ensures a == b <==> Shl(a, n) == Shl(b, n)
    decreases n
  {
    if n > 0 { ShlOrder(a + a, b + b, n - 1); }
  }

  lemma {:induction false} ShlTimes(c: nat, t: nat, n: nat)
    ensures Shl(c * t, n) == c * Shl(t, n)
    decreases n
  {
    if n > 0 {
      assert c * (t + t) == c * t + c * t;
      ShlTimes(c, t + t, n - 1);
    }
  }

  lemma {:induction false} ShlGrows(t: nat, a: nat, b: nat)
    requires a <= b
    ensures Shl(t, a) <= Shl(t, b)
  {
    if a < b {
      ShlGrows(t, a, b - 1);
      ShlStep(t, b - 1);
    }
  }

  // Shifts by the field widths are multiplications by constants.

  lemma ShlFive(t: nat, n: nat)
    ensures Shl(t, n + 5) == 32 * Shl(t, n)
  {
    ShlStep(t, n);
    ShlStep(t, n + 1);
    ShlStep(t, n + 2);
    ShlStep(t, n + 3);
    ShlStep(t, n + 4);
  }

  lemma Shl10(t: nat)
    ensures Shl(t, 10) == t * 0x400
  {
    ShlFive(t, 0);
    ShlFive(t, 5);
  }

  lemma Shl12(t: nat)
    ensures Shl(t, 12) == t * 0x1000
  {
    Shl10(t);
    ShlStep(t, 10);
    ShlStep(t, 11);
  }

  lemma Shl13(t: nat)
    ensures Shl(t, 13) == t * 0x2000
  {
    Shl12(t);
    ShlStep(t, 12);
  }

  lemma Shl14(t: nat)
    ensures Shl(t, 14) == t * 0x4000
  {
    Shl13(t);
    ShlStep(t, 13);
  }

  lemma Shl15(t: nat)
    ensures Shl(t, 15) == t * 0x8000
  {
    Shl10(t);
    ShlFive(t, 10);
  }

  lemma Shl23(t: nat)
    ensures Shl(t, 23) == t * 0x80_0000
  {
    Shl13(t);
    ShlFive(t, 13);
    ShlFive(t, 18);
  }

  // ---- The two conversions, as written -----------------------------------

  type f32mag = x: nat | x < 0x8000_0000
  type f16mag = x: nat | x < 0x8000

  datatype F32 = F32(neg: bool, mag: f32mag)
  datatype F16 = F16(neg: bool, mag: f16mag)

  predicate RoundsUp(rest: nat, halfway: nat, kept: nat) {
    rest > halfway || (rest == halfway && kept % 2 == 1)
  }

  function EncodeMagnitude(x: f32mag): f16mag {
    var exp, mantissa := x / 0x80_0000, x % 0x80_0000;
    if exp == 0xff then
      0x7c00 + if mantissa != 0 then 0x200 else 0
    else
      var unbiased := exp - 127;
      if unbiased >= 16 then 0x7c00
      else if unbiased >= -14 then
        var mantissa10, rest := mantissa / 0x2000, mantissa % 0x2000;
        var out := (unbiased + 15) * 0x400 + mantissa10;
        if RoundsUp(rest, 0x1000, mantissa10) then out + 1 else out
      else if unbiased >= -25 then
        var full := mantissa + 0x80_0000;
        var shift: nat := -14 - unbiased + 13;
        var mantissa10, rest := ShiftRight(full, shift), LowBits(full, shift);
        ShiftLeavesTenBits(full, shift);
        if RoundsUp(rest, Shl(1, shift - 1), mantissa10) then mantissa10 + 1 else mantissa10
      else 0
  }

  /** Every arm of the source keeps the sign bit. */
  function F32ToF16Bits(v: F32): F16 { F16(v.neg, EncodeMagnitude(v.mag)) }

  lemma ShiftLeavesTenBits(full: nat, shift: nat)
    requires full < 0x100_0000 && shift >= 14
    ensures ShiftRight(full, shift) < 0x400
  {
    SplitBits(full, shift);
    var q := ShiftRight(full, shift);
    ShlGrows(q, 14, shift);
    Shl14(q);
  }

  function Log2(m: nat): nat
    requires m > 0
  {
    if m == 1 then 0 else 1 + Log2(m / 2)
  }

  lemma {:induction false} Log2Range(m: nat)
    requires m > 0
    ensures Shl(1, Log2(m)) <= m < 2 * Shl(1, Log2(m))
  {
    if m > 1 {
      Log2Range(m / 2);
      ShlStep(1, Log2(m / 2));
    }
  }

  lemma {:induction false} Log2Mono(a: nat, b: nat)
    requires 0 < a <= b
    ensures Log2(a) <= Log2(b)
  {
    if a > 1 { Log2Mono(a / 2, b / 2); }
  }

  /** The number of leading zeros of a 32-bit word. */
  function LeadingZeros(m: nat): int
    requires m > 0
  {
    31 - Log2(m)
  }

  /** `leading_zeros() - 21` on a nonzero 10-bit field. */
  function SubnormalShift(mantissa: nat): (shift: nat)
    requires 0 < mantissa < 0x400
    ensures 1 <= shift <= 10
  {
    Log2Mono(mantissa, 0x3ff);
    assert Log2(0x3ff) == 9;
    LeadingZeros(mantissa) - 21
  }

  function DecodeMagnitude(h: f16mag): f32mag {
    var exp, mantissa := h / 0x400, h % 0x400;
    if exp == 0 && mantissa == 0 then 0
    else if exp == 0 then
      var shift := SubnormalShift(mantissa);
      var shifted := Shl(mantissa, shift + 1) % 0x400;
      (127 - 15 - shift) * 0x80_0000 + shifted * 0x2000
    else if exp == 0x1f && mantissa == 0 then 0x7f80_0000
    else if exp == 0x1f then
      // The quiet bit is or-ed into a field that may already hold it.
      0x7fc0_0000 + mantissa % 0x200 * 0x2000
    else (exp + 127 - 15) * 0x80_0000 + mantissa * 0x2000
  }

  function F16BitsToF32(h: F16): F32 { F32(h.neg, DecodeMagnitude(h.mag)) }

  /** The subnormal arm with its shift corrected by one: not what the code does. */
  function CorrectedDecodeMagnitude(h: f16mag): f32mag {
    if 0 < h < 0x400 then
      var shift := SubnormalShift(h);
      (127 - 14 - shift) * 0x80_0000 + Shl(h, shift) % 0x400 * 0x2000
    else DecodeMagnitude(h)
  }

  function F16BitsToF32Corrected(h: F16): F32 { F32(h.neg, CorrectedDecodeMagnitude(h.mag)) }

  function RoundF32ViaF16(v: F32): F32 { F16BitsToF32(F32ToF16Bits(v)) }

  // ---- Values ------------------------------------------------------------

  /** The value of a finite pattern with exponent field `e` and fraction `f`
      below `d` (IEEE 754-2019 section 3.4); `k` fixes the unit. */
  ghost function FieldMag(d: nat, e: nat, f: nat, k: int): nat
    requires k >= -1
  {
    if e == 0 then Shl(f, 1 + k) else Shl(d + f, e + k)
  }

  ghost function SingleMag(x: nat): nat { FieldMag(0x80_0000, x / 0x80_0000, x % 0x80_0000, -1) }
  ghost function HalfMag(h: nat): nat { FieldMag(0x400, h / 0x400, h % 0x400, 124) }

  const INF32: nat := 0x7f80_0000
  const INF16: nat := 0x7c00

  /** The next pattern is worth strictly more, across binades too. */
  lemma FieldStep(d: nat, e: nat, f: nat, k: int)
    requires k >= -1 && f < d
    ensures f + 1 < d ==> FieldMag(d, e, f, k) < FieldMag(d, e, f + 1, k)
    ensures f + 1 == d ==> FieldMag(d, e, f, k) < FieldMag(d, e + 1, 0, k)
  {
    if e == 0 {
      ShlOrder(f, f + 1, 1 + k);
    } else {
      ShlOrder(d + f, d + f + 1, e + k);
      ShlAdd(d, d, e + k);
    }
  }

  lemma {:induction false} SingleMagMonotone(x: nat, y: nat)
    requires x < y
    ensures SingleMag(x) < SingleMag(y)
    decreases y
  {
    FieldStep(0x80_0000, (y - 1) / 0x80_0000, (y - 1) % 0x80_0000, -1);
    if x < y - 1 { SingleMagMonotone(x, y - 1); }
  }

  lemma {:induction false} HalfMagMonotone(a: nat, b: nat)
    requires a < b
    ensures HalfMag(a) < HalfMag(b)
    decreases b
  {
    FieldStep(0x400, (b - 1) / 0x400, (b - 1) % 0x400, 124);
    if a < b - 1 { HalfMagMonotone(a, b - 1); }
  }

  lemma SingleMagOf(x: nat, e: nat, f: nat)
    requires x / 0x80_0000 == e > 0 && x % 0x80_0000 == f
    ensures SingleMag(x) == Shl(0x80_0000 + f, e - 1)
  {}

  lemma SubnormalHalfMag(m: nat, n: nat)
    requires m < 0x400 && n == 125
    ensures HalfMag(m) == Shl(m, n)
  {
    assert m / 0x400 == 0 && m % 0x400 == m;
  }

  // ---- Rounding a value to fewer bits, at any width ----------------------

  function RoundShift(x: nat, s: nat): nat
    requires s > 0
  {
    var q := ShiftRight(x, s);
    if RoundsUp(LowBits(x, s), Shl(1, s - 1), q) then q + 1 else q
  }

  ghost function Dist(a: nat, b: nat): nat { if a < b then b - a else a - b }

  /** `lo` (worth vlo) and `lo + 1` (worth vhi) bracket the value v; `z` is the
      nearer one, the even one on a tie, at most `bound` away. */
  ghost predicate NearerOf(vlo: nat, vhi: nat, v: nat, lo: nat, z: nat, bound: nat) {
    && vlo <= v < vhi
    && (z == lo || z == lo + 1)
    && (z == lo ==> Dist(vlo, v) <= Dist(vhi, v) && Dist(vlo, v) <= bound)
    && (z == lo + 1 ==> Dist(vhi, v) <= Dist(vlo, v) && Dist(vhi, v) <= bound)
    && (Dist(vlo, v) == Dist(vhi, v) ==> z % 2 == 0)
  }

  /** RoundShift picks the nearer of the two neighbouring multiples. */
  lemma RoundShiftNeighbours(x: nat, s: nat, q: nat, base: nat)
    requires s > 0 && q == ShiftRight(x, s) && base % 2 == 0
    ensures NearerOf(Shl(q, s), Shl(q + 1, s), x, base + q, base + RoundShift(x, s), Shl(1, s - 1))
  {
    SplitBits(x, s);
    ShlAdd(q, 1, s);
    ShlStep(1, s - 1);
  }

  lemma ShlDist(a: nat, b: nat, n: nat)
    ensures Dist(Shl(a, n), Shl(b, n)) == Shl(Dist(a, b), n)
  {
    if a < b { ShlAdd(a, b - a, n); } else { ShlAdd(b, a - b, n); }
    ShlOrder(a, b, n);
  }

  /** Nearness does not depend on the unit. */
  lemma NearerScaled(vlo: nat, vhi: nat, v: nat, lo: nat, z: nat, bound: nat, n: nat)
    requires NearerOf(vlo, vhi, v, lo, z, bound)
    ensures NearerOf(Shl(vlo, n), Shl(vhi, n), Shl(v, n), lo, z, Shl(bound, n))
  {
    var a, b := Dist(vlo, v), Dist(vhi, v);
    ShlDist(vlo, v, n);
    ShlDist(vhi, v, n);
    ShlOrder(b, a, n);
    ShlOrder(a, b, n);
    ShlOrder(bound, a, n);
    ShlOrder(bound, b, n);
    ShlOrder(v, vlo, n);
    ShlOrder(v, vhi, n);
  }

  // ---- Encoding in value form --------------------------------------------

  /** Magnitudes from half of the least subnormal half up to 2^16. */
  ghost predicate RoundsNormally(x: nat) { 102 <= x / 0x80_0000 <= 142 }

  ghost function Full(x: nat): nat { 0x80_0000 + x % 0x80_0000 }

  ghost function ShiftOf(x: nat): (s: nat)
    requires RoundsNormally(x)
    ensures 13 <= s <= 24
  {
    var e := x / 0x80_0000;
    if e >= 113 then 13 else 126 - e
  }

  /** Biased f16 exponent of the binade the result is rounded in (at least 1). */
  ghost function BinadeOf(x: nat): (b: nat)
    requires RoundsNormally(x)
    ensures 1 <= b <= 30
  {
    var e := x / 0x80_0000;
    if e >= 113 then e - 112 else 1
  }

  ghost function Rounded(x: nat): nat
    requires RoundsNormally(x)
  {
    (BinadeOf(x) - 1) * 0x400 + RoundShift(Full(x), ShiftOf(x))
  }

  lemma NormalSplit(x: nat)
    ensures ShiftRight(Full(x), 13) == 0x400 + x % 0x80_0000 / 0x2000
    ensures LowBits(Full(x), 13) == x % 0x80_0000 % 0x2000
  {
    var full := Full(x);
    SplitBits(full, 13);
    Shl13(ShiftRight(full, 13));
    Shl13(1);
  }

  lemma EncodeShape(x: f32mag)
    requires x < INF32
    ensures EncodeMagnitude(x) <= INF16
    ensures x / 0x80_0000 >= 143 ==> EncodeMagnitude(x) == INF16
    ensures x / 0x80_0000 < 102 ==> EncodeMagnitude(x) == 0
    ensures RoundsNormally(x) ==> EncodeMagnitude(x) == Rounded(x)
  {
    if RoundsNormally(x) {
      if x / 0x80_0000 >= 113 {
        NormalSplit(x);
        Shl12(1);
      } else {
        ShiftLeavesTenBits(Full(x), ShiftOf(x));
      }
    }
  }

  /** A candidate significand `t` in binade `b` is a half pattern worth t units. */
  lemma CandidateMag(b: nat, t: nat)
    requires b >= 1 && t <= 0x800 && (b > 1 ==> t >= 0x400)
    ensures HalfMag((b - 1) * 0x400 + t) == Shl(t, b + 124)
  {
    var h := (b - 1) * 0x400 + t;
    if t < 0x400 {
      assert h / 0x400 == 0 && h % 0x400 == t;
    } else if t < 0x800 {
      assert h / 0x400 == b && h % 0x400 == t - 0x400;
    } else {
      assert h / 0x400 == b + 1 && h % 0x400 == 0;
      ShlAdd(0x400, 0x400, b + 124);
    }
  }

  /** The value rounded, and what the candidate results are worth, in one scale. */
  lemma CommonScale(x: nat, t: nat, s: nat, n: nat)
    requires RoundsNormally(x) && t <= 0x800 && (BinadeOf(x) > 1 ==> t >= 0x400)
    requires s == ShiftOf(x) && n == x / 0x80_0000 - 1
    ensures SingleMag(x) == Shl(Full(x), n)
    ensures HalfMag((BinadeOf(x) - 1) * 0x400 + t) == Shl(Shl(t, s), n)
  {
    CandidateMag(BinadeOf(x), t);
    ShlShl(t, s, n);
  }

  /** `h` is a nearest finite half to the f32 magnitude `x`, ties to even
      (IEEE 754-2019 section 4.3.1, roundTiesToEven). */
  ghost predicate NearestEven(x: nat, h: nat) {
    && h < INF16
    && (forall c: nat :: c < INF16 ==> Dist(HalfMag(h), SingleMag(x)) <= Dist(HalfMag(c), SingleMag(x)))
    && (forall c: nat :: c < INF16 && c != h && Dist(HalfMag(h), SingleMag(x)) == Dist(HalfMag(c), SingleMag(x)) ==>
          h % 2 == 0)
  }

  lemma QuotientRange(x: nat, q: nat)
    requires RoundsNormally(x) && q == ShiftRight(Full(x), ShiftOf(x))
    ensures q < 0x800
    ensures BinadeOf(x) > 1 ==> q >= 0x400
    ensures ShiftOf(x) > 13 ==> q < 0x400
  {
    if ShiftOf(x) > 13 { ShiftLeavesTenBits(Full(x), ShiftOf(x)); } else { NormalSplit(x); }
  }

  /** The encoder's rounding step in value form. */
  lemma Bracket(x: nat) returns (lo: nat)
    requires RoundsNormally(x)
    ensures lo < INF16
    ensures NearerOf(HalfMag(lo), HalfMag(lo + 1), SingleMag(x), lo, Rounded(x),
                     Shl(Shl(1, ShiftOf(x) - 1), x / 0x80_0000 - 1))
  {
    var full, s, n := Full(x), ShiftOf(x), x / 0x80_0000 - 1;
    var q := ShiftRight(full, s);
    QuotientRange(x, q);
    CommonScale(x, q, s, n);
    CommonScale(x, q + 1, s, n);
    var base := (BinadeOf(x) - 1) * 0x400;
    lo := base + q;
    assert Rounded(x) == base + RoundShift(full, s) && base + (q + 1) == lo + 1;
    RoundShiftNeighbours(full, s, q, base);
    NearerScaled(Shl(q, s), Shl(q + 1, s), full, lo, Rounded(x), Shl(1, s - 1), n);
  }

  /** The value 1.0. */
  ghost function One(): nat { SingleMag(0x3f80_0000) }

  /** 65520 lies halfway between the largest half and 2^16. */
  lemma OverflowBits(x: nat, t: nat, one: nat)
    requires t == 0x477f_f000 && one == 0x3f80_0000
    ensures SingleMag(x) >= 65520 * SingleMag(one) <==> x >= t
  {
    SingleMagOf(t, 142, 0x7f_f000);
    SingleMagOf(one, 127, 0);
    var n := 127 - 1;
    ShlShl(0xff_f000, 15, n);
    Shl15(0xff_f000);
    ShlTimes(65520, 0x80_0000, n);
    assert SingleMag(t) == 65520 * SingleMag(one);
    if x < t { SingleMagMonotone(x, t); }
    if x > t { SingleMagMonotone(t, x); }
  }

  lemma RoundsToInfinity(x: nat)
    requires RoundsNormally(x)
    ensures Rounded(x) == INF16 <==> x >= 0x477f_f000
    ensures Rounded(x) <= INF16
  {
    var q := ShiftRight(Full(x), ShiftOf(x));
    QuotientRange(x, q);
    assert RoundShift(Full(x), ShiftOf(x)) == q || RoundShift(Full(x), ShiftOf(x)) == q + 1;
    if BinadeOf(x) == 30 { RoundShift13(Full(x)); }
  }

  /** Which 24-bit significands round up out of the binade. */
  lemma RoundShift13(full: nat)
    requires 0x80_0000 <= full < 0x100_0000
    ensures RoundShift(full, 13) == 0x800 <==> full >= 0xff_f000
  {
    SplitBits(full, 13);
    Shl13(ShiftRight(full, 13));
    Shl13(1);
    Shl12(1);
  }

  /** Correct rounding: a finite input encodes to infinity exactly from 65520;
      below that, to the nearest half, ties to even. */
  lemma EncodeCorrectlyRounded(x: f32mag)
    requires x < INF32
    ensures SingleMag(x) >= 65520 * One() <==> EncodeMagnitude(x) == INF16
    ensures SingleMag(x) < 65520 * One() ==> NearestEven(x, EncodeMagnitude(x))
  {
    EncodeShape(x);
    OverflowBits(x, 0x477f_f000, 0x3f80_0000);
    if RoundsNormally(x) {
      RoundsToInfinity(x);
      if Rounded(x) != INF16 { RoundedIsNearest(x); }
    } else if x / 0x80_0000 < 102 {
      UnderflowIsNearest(x, 0, 1);
    }
  }

  lemma RoundedIsNearest(x: nat)
    requires RoundsNormally(x) && Rounded(x) < INF16
    ensures NearestEven(x, Rounded(x))
  {
    var lo := Bracket(x);
    var h, v := Rounded(x), SingleMag(x);
    forall c: nat | c < INF16
      ensures Dist(HalfMag(h), v) <= Dist(HalfMag(c), v)
      ensures c != h && Dist(HalfMag(h), v) == Dist(HalfMag(c), v) ==> h % 2 == 0
    {
      if c < lo { HalfMagMonotone(c, lo); }
      if c > lo + 1 { HalfMagMonotone(lo + 1, c); }
    }
  }

  /** Inputs below half of the least subnormal round to zero. */
  lemma UnderflowIsNearest(x: nat, zero: nat, one: nat)
    requires x / 0x80_0000 < 102 && zero == 0 && one == 1
    ensures NearestEven(x, zero)
    ensures 2 * Dist(HalfMag(zero), SingleMag(x)) <= HalfMag(one)
  {
    LeastHalf(zero, one, 102 * 0x80_0000);
    SingleMagMonotone(x, 102 * 0x80_0000);
    var v := SingleMag(x);
    assert Dist(HalfMag(zero), v) == v;
    forall c: nat | c < INF16 && c != 0
      ensures Dist(HalfMag(zero), v) < Dist(HalfMag(c), v)
    {
      if c > 1 { HalfMagMonotone(one, c); }
    }
  }

  lemma {:induction false} ShlZero(n: nat)
    ensures Shl(0, n) == 0
  {
    if n > 0 { ShlZero(n - 1); }
  }

  /** Half of the least subnormal half is the f32 pattern 102 << 23. */
  lemma LeastHalf(zero: nat, one: nat, t: nat)
    requires zero == 0 && one == 1 && t == 102 * 0x80_0000
    ensures HalfMag(zero) == 0
    ensures HalfMag(one) == 2 * SingleMag(t)
    ensures SingleMag(t) > 0
  {
    var n := t / 0x80_0000 - 1;
    SubnormalHalfMag(zero, n + 24);
    SubnormalHalfMag(one, n + 24);
    ShlZero(n + 24);
    SingleMagOf(t, 102, 0);
    Shl23(1);
    ShlShl(one, 23, n);
    ShlStep(one, n + 23);
    ShlOrder(zero, 0x80_0000, n);
    ShlZero(n);
  }

  // ---- Monotonicity ------------------------------------------------------

  lemma FiniteMonotone(x: f32mag, y: f32mag)
    requires x < y < INF32
    ensures EncodeMagnitude(x) <= EncodeMagnitude(y)
  {
    var g, h := EncodeMagnitude(x), EncodeMagnitude(y);
    EncodeShape(x);
    EncodeShape(y);
    EncodeCorrectlyRounded(x);
    EncodeCorrectlyRounded(y);
    SingleMagMonotone(x, y);
    if h < g < INF16 {
      HalfMagMonotone(h, g);
      Crossing(SingleMag(x), SingleMag(y), HalfMag(h), HalfMag(g));
    }
  }

  /** Two values cannot each be nearest to the other's side. */
  lemma Crossing(v: nat, w: nat, lo: nat, hi: nat)
    requires v < w && lo < hi
    ensures Dist(hi, v) > Dist(lo, v) || Dist(lo, w) > Dist(hi, w)
  {}

  lemma EncodeMagnitudeMonotone(x: f32mag, y: f32mag)
    requires x <= y <= INF32
    ensures EncodeMagnitude(x) <= EncodeMagnitude(y) <= INF16
  {
    assert EncodeMagnitude(INF32) == INF16;
    if x < y < INF32 {
      FiniteMonotone(x, y);
      EncodeShape(y);
    } else if x < INF32 {
      EncodeShape(x);
    }
  }

  /** The order of numbers on non-NaN patterns. */
  function Order32(v: F32): int { if v.neg then 0 - v.mag else v.mag }
  function Order16(h: F16): int { if h.neg then 0 - h.mag else h.mag }

  /** Encoding never reverses the order of two numbers, infinities included. */
  lemma EncodeMonotone(a: F32, b: F32)
    requires a.mag <= INF32 && b.mag <= INF32 && Order32(a) <= Order32(b)
    ensures Order16(F32ToF16Bits(a)) <= Order16(F32ToF16Bits(b))
  {
    if a.mag <= b.mag { EncodeMagnitudeMonotone(a.mag, b.mag); }
    if b.mag <= a.mag { EncodeMagnitudeMonotone(b.mag, a.mag); }
  }

  // ---- Error bounds ------------------------------------------------------

  /** Relative error at most 2^-11. */
  ghost predicate RelativeOk(x: nat, h: nat) {
    Dist(HalfMag(h), SingleMag(x)) * 0x800 <= SingleMag(x)
  }

  lemma NormalRelativeError(x: nat)
    requires RoundsNormally(x) && x / 0x80_0000 >= 113
    ensures RelativeOk(x, Rounded(x))
  {
    var lo := Bracket(x);
    var n := x / 0x80_0000 - 1;
    Shl12(1);
    ShlTimes(0x800, 0x1000, n);
    ShlOrder(Full(x), 0x80_0000, n);
    SingleMagOf(x, n + 1, x % 0x80_0000);
  }

  lemma SubnormalAbsoluteError(x: nat, one: nat)
    requires RoundsNormally(x) && x / 0x80_0000 < 113 && one == 1
    ensures 2 * Dist(HalfMag(Rounded(x)), SingleMag(x)) <= HalfMag(one)
  {
    var lo := Bracket(x);
    var s, n := ShiftOf(x), x / 0x80_0000 - 1;
    ShlShl(one, s - 1, n);
    ShlStep(one, s - 1 + n);
    SubnormalHalfMag(one, s + n);
  }

  /** Inputs of at least 2^-14 that do not overflow: relative error <= 2^-11.
      Every smaller input: absolute error <= 2^-25, half the least subnormal. */
  lemma ErrorBounds(x: f32mag)
    requires x < 0x477f_f000
    ensures x >= 0x3880_0000 ==> RelativeOk(x, EncodeMagnitude(x))
    ensures x < 0x3880_0000 ==> 2 * Dist(HalfMag(EncodeMagnitude(x)), SingleMag(x)) <= HalfMag(1)
  {
    EncodeShape(x);
    if x / 0x80_0000 >= 113 {
      NormalRelativeError(x);
    } else if x / 0x80_0000 >= 102 {
      SubnormalAbsoluteError(x, 1);
    } else {
      UnderflowIsNearest(x, 0, 1);
    }
  }

  /** The first of the four inputs from 1023.5 * 2^-24 on. */
  const RELATIVE_GAP: nat := 0x387f_e000

  /** For results in the normal range the relative bound holds but for four
      inputs below 2^-14 that round up to the least normal half. */
  lemma RelativeBoundForNormalResults(x: f32mag)
    requires 0x400 <= EncodeMagnitude(x) < INF16
    ensures RelativeOk(x, EncodeMagnitude(x)) <==> !(RELATIVE_GAP <= x < RELATIVE_GAP + 4)
  {
    assert x < INF32;
    EncodeShape(x);
    RoundsToInfinity(x);
    if x >= 0x3880_0000 {
      ErrorBounds(x);
    } else {
      RoundsUpToNormal(x);
      RelativeGap(x, 0x400);
    }
  }

  lemma RelativeGap(x: nat, h: nat)
    requires x / 0x80_0000 == 112 && x >= RELATIVE_GAP && h == 0x400
    ensures RelativeOk(x, h) <==> x >= RELATIVE_GAP + 4
  {
    var n := x / 0x80_0000 - 1;
    CommonScale(x, h, 14, n);
    Shl14(h);
    var err := 0x100_0000 - Full(x);
    ShlDist(0x100_0000, Full(x), n);
    ShlTimes(0x800, err, n);
    ShlOrder(Full(x), 0x800 * err, n);
  }

  /** Below 2^-14, only inputs from 1023.5 * 2^-24 on round to a normal half. */
  lemma RoundsUpToNormal(x: nat)
    requires RoundsNormally(x) && x < 0x3880_0000 && Rounded(x) >= 0x400
    ensures x / 0x80_0000 == 112 && Rounded(x) == 0x400 && x >= RELATIVE_GAP
  {
    var full, s := Full(x), ShiftOf(x);
    var q := ShiftRight(full, s);
    QuotientRange(x, q);
    SplitBits(full, s);
    assert q == 0x3ff;
    if s > 14 {
      ShlGrows(q, 15, s);
      Shl15(q);
    } else {
      Shl14(q);
      Shl13(1);
    }
  }

  // ---- Decoding ----------------------------------------------------------

  lemma DecodeNormal(h: f16mag)
    requires 0x400 <= h < INF16
    ensures DecodeMagnitude(h) < INF32
    ensures SingleMag(DecodeMagnitude(h)) == HalfMag(h)
  {
    var e, m := h / 0x400, h % 0x400;
    SingleMagOf(DecodeMagnitude(h), e + 112, m * 0x2000);
    Shl13(0x400 + m);
    ShlShl(0x400 + m, 13, e + 111);
  }

  /** Splitting a subnormal mantissa at its leading bit. */
  lemma SubnormalFields(m: nat) returns (j: nat)
    requires 0 < m < 0x400
    ensures j == Log2(m) <= 9 && SubnormalShift(m) == 10 - j
    ensures Shl(1, j) <= m < 2 * Shl(1, j)
  {
    var shift := SubnormalShift(m);
    Log2Range(m);
    j := Log2(m);
  }

  /** What is left of mantissa `m` after the code's subnormal arm: the leading
      bit moved down one place, the bit below it dropped. */
  ghost function Drifted(m: nat): nat
    requires m > 1
  {
    Shl(1, Log2(m) - 1) + LowBits(m, Log2(m) - 1)
  }

  lemma DriftedSmaller(m: nat)
    requires 1 < m < 0x400
    ensures 0 < Drifted(m) < m
  {
    Log2Range(m);
    SplitBits(m, Log2(m) - 1);
    ShlOrder(0, 1, Log2(m) - 1);
    ShlZero(Log2(m) - 1);
    ShlStep(1, Log2(m) - 1);
  }

  lemma ModOf(x: nat, q: nat, r: nat)
    requires x == q * 0x400 + r && r < 0x400
    ensures x % 0x400 == r
  {}

  /** m << s for m = (q << d) + r with d + s = 10. */
  lemma ShiftedSplit(m: nat, q: nat, d: nat, r: nat, s: nat)
    requires m == Shl(q, d) + r && r < Shl(1, d) && d + s == 10
    ensures Shl(m, s) == q * 0x400 + Shl(r, s) && Shl(r, s) < 0x400
  {
    assert Shl(m, s) == Shl(q, 10) + Shl(r, s) by {
      ShlAdd(Shl(q, d), r, s);
      ShlShl(q, d, s);
    }
    assert Shl(q, 10) == q * 0x400 by { Shl10(q); }
    ShiftedBound(r, d, s);
  }

  lemma ShiftedBound(r: nat, d: nat, s: nat)
    requires r < Shl(1, d) && d + s == 10
    ensures Shl(r, s) < 0x400
  {
    ShlOrder(r, Shl(1, d), s);
    ShlShl(1, d, s);
    Shl10(1);
  }

  /** Where the shifted mantissa ends up after masking to ten bits. */
  lemma ShiftedTooFar(m: nat, j: nat)
    requires 1 <= j <= 9
    ensures Shl(m, 11 - j) % 0x400 == Shl(LowBits(m, j - 1), 11 - j)
  {
    var q, r0 := ShiftRight(m, j - 1), LowBits(m, j - 1);
    SplitBits(m, j - 1);
    ShiftedSplit(m, q, j - 1, r0, 11 - j);
    ModOf(Shl(m, 11 - j), q, Shl(r0, 11 - j));
  }

  lemma DecodedScale(r0: nat, j: nat, n: nat)
    requires 1 <= j <= 9
    ensures Shl(0x80_0000 + Shl(r0, 11 - j) * 0x2000, n + j) == Shl(Shl(1, j - 1) + r0, n + 24)
  {
    Shl23(1);
    Shl13(Shl(r0, 11 - j));
    ShlAdd(Shl(1, 23), Shl(Shl(r0, 11 - j), 13), n + j);
    ShlAdd(Shl(1, j - 1), r0, n + 24);
    ShlShl(1, 23, n + j);
    ShlShl(1, j - 1, n + 24);
    ShlShl(r0, 11 - j, 13);
    ShlShl(r0, 24 - j, n + j);
  }

  lemma DecodeFields(m: f16mag, j: nat)
    requires 0 < m < 0x400 && j == Log2(m)
    ensures j <= 9
    ensures DecodeMagnitude(m) / 0x80_0000 == 102 + j
    ensures DecodeMagnitude(m) % 0x80_0000 == Shl(m, 11 - j) % 0x400 * 0x2000
  {
    var k := SubnormalFields(m);
    assert m / 0x400 == 0 && m % 0x400 == m;
    FieldsOf(102 + j, Shl(m, 11 - j) % 0x400 * 0x2000);
  }

  lemma FieldsOf(e: nat, f: nat)
    requires f < 0x80_0000
    ensures (e * 0x80_0000 + f) / 0x80_0000 == e && (e * 0x80_0000 + f) % 0x80_0000 == f
  {}

  /** The code's subnormal arm: mantissa m > 1 decodes as if it were Drifted(m),
      and mantissa 1 decodes to half its value. */
  lemma DecodeSubnormalValue(m: f16mag)
    requires 0 < m < 0x400
    ensures DecodeMagnitude(m) < INF32
    ensures m == 1 ==> DecodeMagnitude(m) == 0x3300_0000
    ensures m > 1 ==> SingleMag(DecodeMagnitude(m)) == HalfMag(Drifted(m))
  {
    DecodeFields(m, Log2(m));
    if m == 1 {
      Shl10(1);
      assert Shl(1, 11) == 0x800;
    } else {
      DriftedValue(m);
    }
  }

  lemma DriftedValue(m: f16mag)
    requires 1 < m < 0x400
    ensures SingleMag(DecodeMagnitude(m)) == HalfMag(Drifted(m))
  {
    var j, x := Log2(m), DecodeMagnitude(m);
    DecodeFields(m, j);
    ShiftedTooFar(m, j);
    var n := 102 - 1;
    var r0 := LowBits(m, j - 1);
    SingleMagOf(x, 102 + j, Shl(r0, 11 - j) * 0x2000);
    DecodedScale(r0, j, n);
    DriftedSmaller(m);
    SubnormalHalfMag(Drifted(m), n + 24);
  }

  /** Every subnormal half decodes strictly too small. */
  lemma DecodeSubnormalTooSmall(m: f16mag)
    requires 0 < m < 0x400
    ensures 0 < SingleMag(DecodeMagnitude(m)) < HalfMag(m)
  {
    DecodeSubnormalValue(m);
    if m == 1 {
      LeastHalf(0, m, 0x3300_0000);
    } else {
      DriftedSmaller(m);
      HalfMagMonotone(Drifted(m), m);
      HalfMagMonotone(0, Drifted(m));
    }
  }

  /** Decoding a finite half is exact precisely outside the subnormals. */
  lemma DecodeExactIff(h: f16mag)
    requires h < INF16
    ensures SingleMag(DecodeMagnitude(h)) == HalfMag(h) <==> h == 0 || h >= 0x400
  {
    if h >= 0x400 { DecodeNormal(h); }
    else if h > 0 { DecodeSubnormalTooSmall(h); }
    else { LeastHalf(h, 1, 0x3300_0000); }
  }

  /** The least subnormal half, 2^-24, decodes as 2^-25. */
  lemma LeastSubnormalDecodesToHalf()
    ensures F16BitsToF32(F16(false, 1)) == F32(false, 0x3300_0000)
    ensures 2 * SingleMag(0x3300_0000) == HalfMag(1)
  {
    DecodeSubnormalValue(1);
    LeastHalf(0, 1, 0x3300_0000);
  }

  lemma CorrectedFields(m: f16mag, j: nat)
    requires 0 < m < 0x400 && j == Log2(m)
    ensures j <= 9 && Shl(m, 10 - j) >= 0x400
    ensures CorrectedDecodeMagnitude(m) / 0x80_0000 == 103 + j
    ensures CorrectedDecodeMagnitude(m) % 0x80_0000 == (Shl(m, 10 - j) - 0x400) * 0x2000
  {
    var k := SubnormalFields(m);
    ShiftedSplit(m, 1, j, m - Shl(1, j), 10 - j);
    FieldsOf(103 + j, (Shl(m, 10 - j) - 0x400) * 0x2000);
  }

  lemma CorrectedSubnormal(m: f16mag)
    requires 0 < m < 0x400
    ensures CorrectedDecodeMagnitude(m) < INF32
    ensures SingleMag(CorrectedDecodeMagnitude(m)) == HalfMag(m)
  {
    var j := SubnormalFields(m);
    CorrectedFields(m, j);
    var t, n := Shl(m, 10 - j), 102 + j;
    SingleMagOf(CorrectedDecodeMagnitude(m), 103 + j, (t - 0x400) * 0x2000);
    Shl13(t);
    ShlShl(m, 10 - j, 13);
    ShlShl(m, 23 - j, n);
    SubnormalHalfMag(m, 23 - j + n);
  }

  /** With the corrected arm, decoding is exact for every finite half. */
  lemma DecodeCorrectedExact(h: f16mag)
    requires h < INF16
    ensures CorrectedDecodeMagnitude(h) < INF32
    ensures SingleMag(CorrectedDecodeMagnitude(h)) == HalfMag(h)
  {
    if h >= 0x400 {
      DecodeNormal(h);
    } else if h > 0 {
      CorrectedSubnormal(h);
    } else {
      LeastHalf(h, 1, 0x3300_0000);
    }
  }

  // ---- Round trips -------------------------------------------------------

  lemma ExactIsNearest(x: nat, h: nat, g: nat)
    requires NearestEven(x, g) && h < INF16 && SingleMag(x) == HalfMag(h)
    ensures g == h
  {
    assert Dist(HalfMag(g), SingleMag(x)) <= Dist(HalfMag(h), SingleMag(x));
    if g < h { HalfMagMonotone(g, h); }
    if h < g { HalfMagMonotone(h, g); }
  }

  /** Encoding an f32 whose value is exactly that of half `h` gives `h`. */
  lemma ExactValueEncodes(x: f32mag, h: nat)
    requires x < INF32 && h < INF16 && SingleMag(x) == HalfMag(h)
    ensures EncodeMagnitude(x) == h
  {
    assert HalfMag(h) < 65520 * One() by {
      LargestHalf(0x7bff);
      if h < 0x7bff { HalfMagMonotone(h, 0x7bff); }
    }
    EncodeCorrectlyRounded(x);
    ExactIsNearest(x, h, EncodeMagnitude(x));
  }

  /** The largest half, 65504, is the f32 pattern 0x477fe000. */
  lemma LargestHalf(h: f16mag)
    requires h == 0x7bff
    ensures HalfMag(h) < 65520 * One()
  {
    DecodeNormal(h);
    OverflowBits(DecodeMagnitude(h), 0x477f_f000, 0x3f80_0000);
  }

  lemma MagnitudeRoundTrip(h: f16mag)
    requires h == 0 || 0x400 <= h <= INF16
    ensures EncodeMagnitude(DecodeMagnitude(h)) == h
  {
    if 0x400 <= h < INF16 {
      DecodeNormal(h);
      ExactValueEncodes(DecodeMagnitude(h), h);
    }
  }

  /** What a subnormal half comes back as: a strictly smaller one. */
  lemma SubnormalComesBackLower(m: f16mag)
    requires 0 < m < 0x400
    ensures EncodeMagnitude(DecodeMagnitude(m)) == (if m == 1 then 0 else Drifted(m)) < m
  {
    DecodeSubnormalTooSmall(m);
    DecodeSubnormalValue(m);
    if m == 1 {
      HalfUnitEncodesToZero(0x3300_0000);
    } else {
      DriftedSmaller(m);
      ExactValueEncodes(DecodeMagnitude(m), Drifted(m));
    }
  }

  /** Decoding then encoding gives back exactly the zeros, the normals, the infinities and
      the one quiet NaN pattern that encoding produces. */
  lemma DecodeEncodeRoundTripIff(h: F16)
    ensures F32ToF16Bits(F16BitsToF32(h)) == h
            <==> h.mag == 0 || 0x400 <= h.mag <= INF16 || h.mag == 0x7e00
  {
    if h.mag > INF16 { NanIsStable(DecodeMagnitude(h.mag)); }
    else if 0 < h.mag < 0x400 { SubnormalComesBackLower(h.mag); }
    else { MagnitudeRoundTrip(h.mag); }
  }

  lemma CorrectedMagnitudeRoundTrip(h: f16mag)
    requires h <= INF16
    ensures EncodeMagnitude(CorrectedDecodeMagnitude(h)) == h
  {
    if h < INF16 {
      DecodeCorrectedExact(h);
      ExactValueEncodes(CorrectedDecodeMagnitude(h), h);
    }
  }

  /** With the corrected arm the round trip covers every non-NaN half. */
  lemma CorrectedRoundTrip(h: F16)
    requires h.mag <= INF16
    ensures F32ToF16Bits(F16BitsToF32Corrected(h)) == h
  {
    CorrectedMagnitudeRoundTrip(h.mag);
  }

  /** Re-rounding a decoded subnormal moves it again. */
  lemma SubnormalDrifts(m: f16mag)
    requires 0 < m < 0x400
    ensures DecodeMagnitude(EncodeMagnitude(DecodeMagnitude(m))) != DecodeMagnitude(m)
  {
    SubnormalComesBackLower(m);
    DecodeSubnormalTooSmall(m);
    DecodeSubnormalValue(m);
    if m > 1 {
      DriftedSmaller(m);
      DecodeSubnormalTooSmall(Drifted(m));
    }
  }

  /** 2^-25 is a tie between zero and the least subnormal. */
  lemma HalfUnitEncodesToZero(x: f32mag)
    requires x == 0x3300_0000
    ensures EncodeMagnitude(x) == 0
  {
    EncodeShape(x);
    assert Full(x) == 0x80_0000 && ShiftOf(x) == 24 && BinadeOf(x) == 1;
    ZeroQuotient(Full(x), ShiftOf(x));
  }

  lemma ZeroQuotient(x: nat, n: nat)
    requires x == 0x80_0000 && n == 24
    ensures ShiftRight(x, n) == 0 && LowBits(x, n) == x && Shl(1, n - 1) == x
  {
    SplitBits(x, n);
    Shl23(1);
    Shl23(ShiftRight(x, n));
    ShlStep(ShiftRight(x, n), n - 1);
  }

  lemma NanIsStable(x: f32mag)
    requires x > INF32
    ensures EncodeMagnitude(x) == 0x7e00
    ensures DecodeMagnitude(0x7e00) == 0x7fc0_0000
  {}

  lemma MagnitudeIdempotentIff(x: f32mag)
    ensures var y := DecodeMagnitude(EncodeMagnitude(x));
            DecodeMagnitude(EncodeMagnitude(y)) == y <==> !(0 < EncodeMagnitude(x) < 0x400)
  {
    var h := EncodeMagnitude(x);
    if x > INF32 {
      NanIsStable(x);
      NanIsStable(0x7fc0_0000);
    } else {
      EncodeMagnitudeMonotone(x, x);
      if 0 < h < 0x400 {
        SubnormalDrifts(h);
      } else {
        MagnitudeRoundTrip(h);
      }
    }
  }

  /** Just above that tie the result is positive. */
  lemma AboveTheTie(x: f32mag)
    requires x == 0x3300_0001
    ensures EncodeMagnitude(x) > 0
  {
    var full, s := Full(x), ShiftOf(x);
    var q := ShiftRight(full, s);
    EncodeShape(x);
    assert full == 0x80_0001 && s == 24;
    SplitBits(full, s);
    Shl23(1);
    Shl23(q);
    ShlStep(q, 23);
  }

  lemma GapParts()
    ensures RELATIVE_GAP / 0x80_0000 == 112 && RELATIVE_GAP % 0x80_0000 == 0x7f_e000
  {}

  /** The first input that rounds up to the least normal half is a tie, too. */
  lemma UpToNormal(x: f32mag)
    requires x == RELATIVE_GAP
    ensures EncodeMagnitude(x) == 0x400
  {
    EncodeShape(x);
    GapParts();
    assert Full(x) == 0xff_e000 && ShiftOf(x) == 14 && BinadeOf(x) == 1;
    TieQuotient(Full(x), ShiftOf(x));
  }

  lemma TieQuotient(x: nat, n: nat)
    requires x == 0xff_e000 && n == 14
    ensures ShiftRight(x, n) == 0x3ff && LowBits(x, n) == Shl(1, n - 1)
  {
    SplitBits(x, n);
    Shl14(ShiftRight(x, n));
    Shl14(1);
    Shl13(1);
  }

  /** The inputs whose result is subnormal form one interval. */
  lemma SubnormalResultIff(x: f32mag)
    ensures 0 < EncodeMagnitude(x) < 0x400 <==> 0x3300_0001 <= x < RELATIVE_GAP
  {
    HalfUnitEncodesToZero(0x3300_0000);
    AboveTheTie(0x3300_0001);
    UpToNormal(RELATIVE_GAP);
    if x > INF32 { NanIsStable(x); }
    else if x <= 0x3300_0000 { EncodeMagnitudeMonotone(x, 0x3300_0000); }
    else if x >= RELATIVE_GAP { EncodeMagnitudeMonotone(RELATIVE_GAP, x); }
    else {
      EncodeMagnitudeMonotone(0x3300_0001, x);
      EncodeShape(x);
      if RoundsNormally(x) && Rounded(x) >= 0x400 { RoundsUpToNormal(x); }
    }
  }

  /** Rounding through f16 storage is idempotent at exactly the inputs outside
      (2^-25, 1023.5 * 2^-24). */
  lemma RoundIdempotentIff(v: F32)
    ensures RoundF32ViaF16(RoundF32ViaF16(v)) == RoundF32ViaF16(v)
            <==> !(0x3300_0001 <= v.mag < 0x387f_e000)
  {
    MagnitudeIdempotentIff(v.mag);
    SubnormalResultIff(v.mag);
  }
}
