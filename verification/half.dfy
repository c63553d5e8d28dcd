/** The binary32 -> binary16 conversion the harness uses for float16 data
    (`toHalf`, webnn/resources/utils.js:950-994), over the 32-bit pattern of the
    float, plus an exact binary16 -> binary32 reference decoder to compare it with.
    Formats follow section 3.6 of IEEE 754-2008: binary32 has 1 sign, 8 exponent
    (bias 127) and 23 fraction bits; binary16 has 1 sign, 5 exponent (bias 15) and
    10 fraction bits. */
module Half {

  /** Sign of a binary32 pattern moved to bit 15 (utils.js:961). The source shifts a
      signed 32-bit integer arithmetically; the mask keeps only bit 15 of the shifted
      value, which is bit 31 of `x` under either shift, so a logical shift is used. */
  function SignOf(x: bv32): bv32 { (x >> 16) & 0x8000 }

  /** Biased binary32 exponent, bits 30..23 (utils.js:963). */
  function ExponentOf(x: bv32): bv32 { (x >> 23) & 0xff }

  /** The top 11 fraction bits: 10 for binary16 plus one for rounding (utils.js:962). */
  function RoundingFractionOf(x: bv32): bv32 { (x >> 12) & 0x07ff }

  /** The full 23-bit binary32 fraction. */
  function FractionOf(x: bv32): bv32 { x & 0x007f_ffff }

  predicate IsFloat32NaN(x: bv32) { ExponentOf(x) == 0xff && FractionOf(x) != 0 }

  /** A binary16 pattern is a value in [0, 0x10000). */
  predicate IsHalf(h: bv32) { h < 0x1_0000 }

  predicate IsHalfNaN(h: bv32) { (h >> 10) & 0x1f == 0x1f && h & 0x3ff != 0 }

  /** `toHalf` as written, on the bit pattern `x` of the float32 value.
      Two paths do not produce a binary16 pattern:
      - exponent 255 (Inf or NaN) yields the infinity pattern: the JavaScript
        `(e == 255 ? 0 : 1) && (x & 0x007fffff)` (utils.js:976) is 0 there, so a NaN
        is not told apart from an infinity;
      - exponents 143..254 OR the raw 23-bit fraction into the infinity pattern, so
        the number returned can exceed 16 bits, and its low 16 bits, which a
        Uint16Array keeps, can be the other infinity or a NaN.
      Everywhere else the result is a binary16 pattern carrying the input's sign. */
  function ToHalf(x: bv32): (r: bv32)
    ensures r < 0x80_0000
    ensures ExponentOf(x) <= 142 || ExponentOf(x) == 255 ==> IsHalf(r) && r & 0x8000 == SignOf(x)
    ensures ExponentOf(x) > 142 ==> r & 0x7c00 == 0x7c00
  {
    var e := ExponentOf(x);
    if e < 103 then
      // zero, binary32 denormal, or too small even for a binary16 denormal
      SignOf(x)
    else if e > 142 then
      OverflowPath(x)
    else if e < 113 then
      DenormalPath(x)
    else
      NormalPath(x)
  }

  /** utils.js:972-977: infinity pattern, OR-ed with the raw fraction unless e == 255. */
  function OverflowPath(x: bv32): bv32
    requires ExponentOf(x) > 142
  {
    (SignOf(x) | 0x7c00) | (if ExponentOf(x) == 255 then 0 else FractionOf(x))
  }

  /** utils.js:981-987: binary16 denormal; a rounding carry may give the smallest normal. */
  function DenormalPath(x: bv32): bv32
    requires 103 <= ExponentOf(x) < 113
  {
    var e := ExponentOf(x);
    var m := RoundingFractionOf(x) | 0x0800;
    SignOf(x) | ((m >> (114 - e)) + ((m >> (113 - e)) & 1))
  }

  /** utils.js:989-993: rebias the exponent, drop the rounding bit, then round it back in. */
  function NormalPath(x: bv32): bv32
    requires 113 <= ExponentOf(x) <= 142
  {
    var m := RoundingFractionOf(x);
    (SignOf(x) | ((ExponentOf(x) - 112) << 10) | (m >> 1)) + (m & 1)
  }

  /** Index of the leading one bit of a nonzero 10-bit fraction. */
  function LeadingBit(m: bv32): (p: bv32)
    requires 0 < m < 0x400
    ensures p < 10 && m >> p == 1
  {
    if m >= 0x200 then 9
    else if m >= 0x100 then 8
    else if m >= 0x80 then 7
    else if m >= 0x40 then 6
    else if m >= 0x20 then 5
    else if m >= 0x10 then 4
    else if m >= 0x8 then 3
    else if m >= 0x4 then 2
    else if m >= 0x2 then 1
    else 0
  }

  /** Exact widening of a binary16 pattern to the binary32 pattern of the same value.
      A binary16 denormal m * 2^-24 with leading bit p becomes a binary32 normal with
      biased exponent p + 103. Not part of the source: the reference `ToHalf` is
      checked against. */
  function FromHalf(h: bv32): (x: bv32)
    requires IsHalf(h)
    ensures x >> 31 == h >> 15
    ensures IsFloat32NaN(x) <==> IsHalfNaN(h)
  {
    var sign := (h & 0x8000) << 16;
    var e5 := (h >> 10) & 0x1f;
    var m10 := h & 0x3ff;
    if e5 == 0x1f then sign | 0x7f80_0000 | (m10 << 13)
    else if e5 != 0 then NormalWiden(h)
    else if m10 == 0 then sign
    else DenormalWiden(h)
  }

  /** Widening of a binary16 denormal m * 2^-24, m's leading one at bit p: a binary32
      normal with biased exponent p - 24 + 127 and the bits below p as fraction. */
  function DenormalWiden(h: bv32): (x: bv32)
    requires IsHalf(h) && (h >> 10) & 0x1f == 0 && h & 0x3ff != 0
    ensures x >> 31 == h >> 15
    ensures 103 <= ExponentOf(x) < 113
  {
    var m10 := h & 0x3ff;
    var p := LeadingBit(m10);
    ((h & 0x8000) << 16) | ((p + 103) << 23) | ((m10 << (23 - p)) & 0x7f_ffff)
  }

  /** Widening of a binary16 normal: rebias the exponent by 127 - 15 = 112. */
  function NormalWiden(h: bv32): bv32
    requires IsHalf(h)
  {
    ((h & 0x8000) << 16) | ((((h >> 10) & 0x1f) + 112) << 23) | ((h & 0x3ff) << 13)
  }

  /** Every binary16 value other than a NaN survives widening followed by `ToHalf`. */
  lemma ToHalfFromHalf(h: bv32)
    requires IsHalf(h) && !IsHalfNaN(h)
    ensures ToHalf(FromHalf(h)) == h
  {
    var e5 := (h >> 10) & 0x1f;
    if e5 == 0x1f {
      // infinity: the fraction is zero
    } else if e5 != 0 {
      ToHalfFromHalfNormal(h);
    } else if h & 0x3ff != 0 {
      ToHalfFromHalfDenormal(h);
    }
  }

  lemma ToHalfFromHalfNormal(h: bv32)
    requires IsHalf(h) && 0 < (h >> 10) & 0x1f < 0x1f
    ensures ToHalf(FromHalf(h)) == h
  {
    assert FromHalf(h) == NormalWiden(h);
    ToHalfNormalWiden(h);
  }

  lemma ToHalfNormalWiden(h: bv32)
    requires IsHalf(h) && 0 < (h >> 10) & 0x1f < 0x1f
    ensures ToHalf(NormalWiden(h)) == h
  {
    NormalWidenCase(h);
    ToHalfNormalReassembled(NormalWiden(h), h);
  }

  /** `x` is a normal-range float exactly representable in binary16, whose fields
      reassemble to the binary16 pattern `h`. */
  predicate NormalCase(x: bv32, h: bv32)
  {
    && 113 <= ExponentOf(x) <= 142 && x & 0x1fff == 0
    && SignOf(x) | ((ExponentOf(x) - 112) << 10) | (FractionOf(x) >> 13) == h
  }

  lemma ToHalfNormalReassembled(x: bv32, h: bv32)
    requires NormalCase(x, h)
    ensures ToHalf(x) == h
  {
    ToHalfNormalExact(x);
  }

  lemma NormalWidenCase(h: bv32)
    requires IsHalf(h) && 0 < (h >> 10) & 0x1f < 0x1f
    ensures NormalCase(NormalWiden(h), h)
  {
    NormalWidenInRange(h);
    NormalWidenReassembles(h);
  }

  lemma NormalWidenInRange(h: bv32)
    requires IsHalf(h) && 0 < (h >> 10) & 0x1f < 0x1f
    ensures 113 <= ExponentOf(NormalWiden(h)) <= 142 && NormalWiden(h) & 0x1fff == 0
  {
  }

  lemma NormalWidenReassembles(h: bv32)
    requires IsHalf(h) && 0 < (h >> 10) & 0x1f < 0x1f
    ensures SignOf(NormalWiden(h)) | ((ExponentOf(NormalWiden(h)) - 112) << 10) | (FractionOf(NormalWiden(h)) >> 13) == h
  {
  }

  /** A normal-range float whose low 13 fraction bits are zero is exactly
      representable, and `ToHalf` rebiases its exponent and keeps its top 10
      fraction bits. */
  lemma ToHalfNormalExact(x: bv32)
    requires 113 <= ExponentOf(x) <= 142 && x & 0x1fff == 0
    ensures ToHalf(x) == SignOf(x) | ((ExponentOf(x) - 112) << 10) | (FractionOf(x) >> 13)
  {
    NormalPathExact(x);
  }

  lemma NormalPathExact(x: bv32)
    requires 113 <= ExponentOf(x) <= 142 && x & 0x1fff == 0
    ensures NormalPath(x) == SignOf(x) | ((ExponentOf(x) - 112) << 10) | (FractionOf(x) >> 13)
  {
  }

  lemma ToHalfFromHalfDenormal(h: bv32)
    requires IsHalf(h) && (h >> 10) & 0x1f == 0 && h & 0x3ff != 0
    ensures ToHalf(FromHalf(h)) == h
  {
    FromHalfDenormal(h);
    ToHalfDenormalWiden(h);
  }

  lemma ToHalfDenormalWiden(h: bv32)
    requires IsHalf(h) && (h >> 10) & 0x1f == 0 && h & 0x3ff != 0
    ensures ToHalf(DenormalWiden(h)) == h
  {
    ToHalfTakesDenormalPath(DenormalWiden(h));
    DenormalPathWiden(h);
  }

  lemma DenormalPathWiden(h: bv32)
    requires IsHalf(h) && (h >> 10) & 0x1f == 0 && h & 0x3ff != 0
    ensures DenormalPath(DenormalWiden(h)) == h
  {
    DenormalWidenFields(h);
    DenormalPathExact(DenormalWiden(h), h & 0x3ff);
    DenormalReassembles(h);
  }

  lemma FromHalfDenormal(h: bv32)
    requires IsHalf(h) && (h >> 10) & 0x1f == 0 && h & 0x3ff != 0
    ensures FromHalf(h) == DenormalWiden(h)
  {
  }

  lemma ToHalfTakesDenormalPath(x: bv32)
    requires 103 <= ExponentOf(x) < 113
    ensures ToHalf(x) == DenormalPath(x)
  {
  }

  /** Below the binary16 normal range (biased exponent 103..112) `ToHalf` counts the
      magnitude in units of 2^-24, the binary16 denormal step, rounding half up. The
      24-bit significand, implicit bit included, is worth 2^(e - 126) such units, so
      the result is the significand plus half a unit, shifted right by 126 - e. A
      carry out of the 10 fraction bits gives 0x400, the smallest binary16 normal. */
  lemma ToHalfDenormal(x: bv32)
    requires 103 <= ExponentOf(x) < 113
    ensures ToHalf(x) == SignOf(x) | ((((x & 0x7f_ffff) | 0x80_0000) + (1 << (125 - ExponentOf(x)))) >> (126 - ExponentOf(x)))
  {
    var e := ExponentOf(x);
    if e < 108 {
      DenormalRoundsBelow108(x);
    } else if e < 110 {
      DenormalRoundsBelow110(x);
    } else if e == 110 {
      DenormalRoundsAt110(x);
    } else if e == 111 {
      DenormalRoundsAt111(x);
    } else {
      DenormalRoundsAt112(x);
    }
  }

  /** The rounding `ToHalfDenormal` states, as a predicate so that the cases below,
      split by exponent to keep each proof small, conclude the same formula. */
  predicate RoundsHalfUp(x: bv32)
    requires 103 <= ExponentOf(x) < 113
  {
    ToHalf(x) == SignOf(x) | ((((x & 0x7f_ffff) | 0x80_0000) + (1 << (125 - ExponentOf(x)))) >> (126 - ExponentOf(x)))
  }

  lemma DenormalRoundsBelow108(x: bv32)
    requires 103 <= ExponentOf(x) < 108
    ensures RoundsHalfUp(x)
  {
  }

  lemma DenormalRoundsBelow110(x: bv32)
    requires 108 <= ExponentOf(x) < 110
    ensures RoundsHalfUp(x)
  {
  }

  lemma DenormalRoundsAt110(x: bv32)
    requires ExponentOf(x) == 110
    ensures RoundsHalfUp(x)
  {
  }

  lemma DenormalRoundsAt111(x: bv32)
    requires ExponentOf(x) == 111
    ensures RoundsHalfUp(x)
  {
  }

  lemma DenormalRoundsAt112(x: bv32)
    requires ExponentOf(x) == 112
    ensures RoundsHalfUp(x)
  {
  }

  lemma DenormalReassembles(h: bv32)
    requires IsHalf(h) && (h >> 10) & 0x1f == 0
    ensures (h & 0x8000) | (h & 0x3ff) == h
  {
  }

  /** The fields of a widened binary16 denormal: the leading one of the fraction
      becomes the implicit bit, and the 11-bit rounding window holds the fraction
      shifted up by 114 - e. */
  lemma DenormalWidenFields(h: bv32)
    requires IsHalf(h) && (h >> 10) & 0x1f == 0 && h & 0x3ff != 0
    ensures SignOf(DenormalWiden(h)) == h & 0x8000
    ensures DenormalCase(DenormalWiden(h), h & 0x3ff)
  {
    DenormalWidenExponent(h);
    DenormalWidenWindow(h);
  }

  lemma DenormalWidenExponent(h: bv32)
    requires IsHalf(h) && (h >> 10) & 0x1f == 0 && h & 0x3ff != 0
    ensures ExponentOf(DenormalWiden(h)) == LeadingBit(h & 0x3ff) + 103
  {
  }

  lemma DenormalWidenWindow(h: bv32)
    requires IsHalf(h) && (h >> 10) & 0x1f == 0 && h & 0x3ff != 0
    ensures RoundingFractionOf(DenormalWiden(h)) | 0x0800 == (h & 0x3ff) << (11 - LeadingBit(h & 0x3ff))
  {
  }

  /** `x` is on the denormal path and its rounding window is the 10-bit fraction
      `m10` shifted up by 114 - e. */
  predicate DenormalCase(x: bv32, m10: bv32)
  {
    103 <= ExponentOf(x) < 113 && m10 < 0x400
    && RoundingFractionOf(x) | 0x0800 == m10 << (114 - ExponentOf(x))
  }

  /** On the denormal path a rounding window that is an exact shift of a 10-bit
      fraction gives that fraction back, with no rounding increment. */
  lemma DenormalPathExact(x: bv32, m10: bv32)
    requires DenormalCase(x, m10)
    ensures DenormalPath(x) == SignOf(x) | m10
  {
  }

  /** A NaN does not: it comes back as the infinity of the same sign. */
  lemma ToHalfFromHalfNaN(h: bv32)
    requires IsHalf(h) && IsHalfNaN(h)
    ensures ToHalf(FromHalf(h)) == (h & 0x8000) | 0x7c00
    ensures ToHalf(FromHalf(h)) != h
  {
  }

  /** Zeros, binary32 denormals and magnitudes below 2^-25 (biased exponent under
      103) become the zero of the same sign (utils.js:965-969). */
  lemma ToHalfUnderflow(x: bv32)
    requires ExponentOf(x) < 103
    ensures ToHalf(x) == (if x >> 31 == 1 then 0x8000 else 0)
  {
  }

  lemma ToHalfSignedZeros()
    ensures ToHalf(0) == 0 && ToHalf(0x8000_0000) == 0x8000
  {
    ToHalfUnderflow(0);
    ToHalfUnderflow(0x8000_0000);
  }

  /** Infinities and NaNs alike become the infinity of their sign: no fraction bit
      is set for a NaN (utils.js:971-977). */
  lemma ToHalfInfinityOrNaN(x: bv32)
    requires ExponentOf(x) == 255
    ensures ToHalf(x) == SignOf(x) | 0x7c00
    ensures IsHalf(ToHalf(x)) && !IsHalfNaN(ToHalf(x))
  {
  }

  /** Finite values too large for binary16 (biased exponent 143..254) get the raw
      23-bit fraction OR-ed into the infinity pattern (utils.js:976). */
  lemma ToHalfOverflow(x: bv32)
    requires 142 < ExponentOf(x) < 255
    ensures ToHalf(x) == SignOf(x) | 0x7c00 | FractionOf(x)
    ensures FractionOf(x) >= 0x1_0000 ==> !IsHalf(ToHalf(x))
  {
  }

  /** 66048.0 = 2^16 * (1 + 2^-7), pattern 0x4781_0000, is a concrete input whose
      result does not fit in 16 bits. */
  lemma ToHalfOverflowExample()
    ensures ExponentOf(0x4781_0000) == 143
    ensures ToHalf(0x4781_0000) == 0x1_7c00
  {
    ToHalfOverflow(0x4781_0000);
  }

  /** Stored into 16 bits, an overflowing finite positive value can change sign or
      become a NaN: 65792.0 = 2^16 * (1 + 2^-8), pattern 0x4780_8000, keeps 0xfc00,
      binary16 -Inf, and 65536 * (1 + 2^-23), pattern 0x4780_0001, keeps 0x7c01, a
      binary16 NaN. */
  lemma ToHalfOverflowStored()
    ensures ToHalf(0x4780_8000) & 0xffff == 0xfc00
    ensures ToHalf(0x4780_0001) & 0xffff == 0x7c01 && IsHalfNaN(0x7c01)
  {
    ToHalfOverflow(0x4780_8000);
    ToHalfOverflow(0x4780_0001);
  }

  /** On the normal path `ToHalf` rounds the magnitude to 10 fraction bits by adding
      half a binary16 unit (2^12 in binary32 pattern units) and truncating: round to
      nearest with ties away from zero. A carry out of the fraction moves to the next
      exponent, and out of exponent 30 to the infinity pattern. */
  lemma ToHalfNormalRounding(x: bv32)
    requires 113 <= ExponentOf(x) <= 142
    ensures ToHalf(x) == SignOf(x) | ((((x & 0x7fff_ffff) + 0x1000) >> 13) - 0x1_c000)
  {
    NormalPathRounding(x);
  }

  lemma NormalPathRounding(x: bv32)
    requires 113 <= ExponentOf(x) <= 142
    ensures NormalPath(x) == SignOf(x) | ((((x & 0x7fff_ffff) + 0x1000) >> 13) - 0x1_c000)
  {
  }

  /** Ties round away from zero, not to even: 1 + 2^-11 (pattern 0x3f80_1000) lies
      halfway between binary16 1.0 (0x3c00, even) and 1 + 2^-10 (0x3c01), and
      `ToHalf` picks the latter. */
  lemma ToHalfTieAwayFromZero()
    ensures ToHalf(0x3f80_1000) == 0x3c01
  {
    ToHalfNormalRounding(0x3f80_1000);
  }
}
