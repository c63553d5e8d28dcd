/** The ULP comparison of computed outputs with expected data: `getBitwise`
    (webnn/resources/utils.js:454-466), `assert_array_approx_equals_ulp`
    (utils.js:480-509) and `doAssert` (utils.js:522-534). */
module Ulp {
  import opened Wrappers
  import opened Values
  import opened Fixtures
  import Half

  // ---------------------------------------------------------------------------
  // getBitwise

  /** The signed reading of a BigInt64Array element from its high and low 32-bit
      words. */
  function Int64OfWords(high: bv32, low: bv32): int
  {
    high as int * 0x1_0000_0000 + low as int - (if high >> 31 == 1 then 0x1_0000_0000_0000_0000 else 0)
  }

  /** `getBitwise(value, dataType)`: an 8-byte buffer is filled with ones when
      `value < 0` and with zeros otherwise, its low four bytes (little-endian) are
      overwritten with the value's binary32 pattern, and the whole is read back as a
      signed 64-bit integer. The result is the pattern read as a signed 32-bit
      integer when the value is negative, the pattern itself otherwise. Any data type
      but float32 throws. */
  function GetBitwise(value: JsNumber, dataType: DataType, env: Env): (r: Result<int, Error>)
    ensures r.Err? <==> dataType != Float32
    ensures r.Err? ==> r.error == UnsupportedDataType(dataType)
    ensures r.Ok? ==>
      r.value == Float32Bits(value, env) as int - (if IsNegative(value) then 0x1_0000_0000 else 0)
  {
    var high: bv32 := if IsNegative(value) then 0xffff_ffff else 0;
    if dataType != Float32 then Err(UnsupportedDataType(dataType))
    else Ok(Int64OfWords(high, Float32Bits(value, env)))
  }

  /** -0 is not `< 0`, so its buffer is not sign-extended: its bits read back as 2^31,
      while +0 reads back as 0. */
  lemma GetBitwiseNegativeZero(env: Env)
    ensures GetBitwise(NegativeZero, Float32, env) == Ok(0x8000_0000)
    ensures GetBitwise(Finite(0.0), Float32, env) == Ok(0)
  {
  }

  /** The value's sign agrees with its pattern's sign bit (every number but -0 and
      NaN, given a faithful conversion to binary32). */
  predicate SignAgrees(value: JsNumber, env: Env)
  {
    IsNegative(value) <==> Float32Bits(value, env) as int >= 0x8000_0000
  }

  /** The pattern without its sign bit. */
  function Magnitude(value: JsNumber, env: Env): (m: int)
    ensures 0 <= m < 0x8000_0000
  {
    Float32Bits(value, env) as int % 0x8000_0000
  }

  /** Where the sign agrees, a non-negative value reads back as its magnitude and a
      negative one as its magnitude minus 2^31. */
  lemma GetBitwiseBySign(value: JsNumber, env: Env)
    requires SignAgrees(value, env)
    ensures GetBitwise(value, Float32, env).value
         == Magnitude(value, env) - (if IsNegative(value) then 0x8000_0000 else 0)
  {
    var bits := Float32Bits(value, env) as int;
    BelowTwoToThe32(Float32Bits(value, env));
    DropSignBit(bits, IsNegative(value));
  }

  lemma BelowTwoToThe32(b: bv32)
    ensures 0 <= b as int < 0x1_0000_0000
  {
  }

  /** Below 2^32, the remainder by 2^31 removes the sign bit. */
  lemma DropSignBit(x: int, negative: bool)
    requires 0 <= x < 0x1_0000_0000
    requires negative <==> x >= 0x8000_0000
    ensures x - (if negative then 0x1_0000_0000 else 0)
         == x % 0x8000_0000 - (if negative then 0x8000_0000 else 0)
  {
    if negative {
      assert x % 0x8000_0000 == x - 0x8000_0000;
    } else {
      assert x % 0x8000_0000 == x;
    }
  }

  /** Between two values of the same sign the bitwise distance is the distance of
      their magnitudes: the number of binary32 values between them. */
  lemma SameSignDistance(a: JsNumber, e: JsNumber, env: Env)
    requires SignAgrees(a, env) && SignAgrees(e, env)
    requires IsNegative(a) == IsNegative(e)
    ensures GetBitwise(a, Float32, env).value - GetBitwise(e, Float32, env).value
         == Magnitude(a, env) - Magnitude(e, env)
  {
    GetBitwiseBySign(a, env);
    GetBitwiseBySign(e, env);
  }

  /** Across zero the bitwise distance is 2^31 plus the difference of the magnitudes,
      so a non-negative actual is at least 2^23 from a negative expected that is not
      a NaN, however close the two values are. */
  lemma CrossSignDistance(a: JsNumber, e: JsNumber, env: Env)
    requires SignAgrees(a, env) && SignAgrees(e, env)
    requires !IsNegative(a) && IsNegative(e)
    requires Magnitude(e, env) <= 0x7f80_0000
    ensures GetBitwise(a, Float32, env).value - GetBitwise(e, Float32, env).value
         == 0x8000_0000 + Magnitude(a, env) - Magnitude(e, env)
    ensures GetBitwise(a, Float32, env).value - GetBitwise(e, Float32, env).value >= 0x80_0000
  {
    GetBitwiseBySign(a, env);
    GetBitwiseBySign(e, env);
  }

  // ---------------------------------------------------------------------------
  // assert_array_approx_equals_ulp

  /** `actual[i]`: an element of the output buffer, or the buffer itself when a
      scalar result was wrapped. */
  datatype Item = Value(scalar: Scalar) | Whole(buffer: seq<Scalar>)

  function ItemAt(actual: Actual, k: nat): Item
    requires k < actual.Length()
  {
    if actual.Elements? then Value(actual.buffer[k]) else Whole(actual.buffer)
  }

  /** The buffer holds numbers wherever the comparison reads it as numbers: a float32
      or float16 output is a Float32Array or a Uint16Array. */
  predicate Numeric(buffer: seq<Scalar>, dataType: DataType)
  {
    dataType == Float32 || dataType == Float16 ==> forall k | 0 <= k < |buffer| :: buffer[k].Num?
  }

  /** `actual[i] === expected[i]`: a BigInt or an array is never `===` a number. */
  predicate Identical(item: Item, e: JsNumber)
  {
    item.Value? && item.scalar.Num? && StrictEquals(item.scalar.number, e)
  }

  /** The number an item stands for in arithmetic: an array stands for the number its
      string form parses as. */
  function NumberOf(item: Item): JsNumber
    requires item.Value? ==> item.scalar.Num?
    requires item.Whole? ==> forall k | 0 <= k < |item.buffer| :: item.buffer[k].Num?
  {
    if item.Value? then item.scalar.number else NumberOfBuffer(item.buffer)
  }

  function AbsReal(x: real): (y: real)
    ensures y >= 0.0 && (y == x || y == -x)
  {
    if x < 0.0 then -x else x
  }

  /** `|a - b|` for a number `a` and an integer `b`: None where it is NaN or
      infinite. */
  function Difference(a: JsNumber, b: int): (d: Option<real>)
    ensures d.Some? <==> a.Finite? || a == NegativeZero
    ensures a.Finite? ==> d == Some(AbsReal(a.value - b as real))
  {
    match a
    case Finite(x) => Some(AbsReal(x - b as real))
    case NegativeZero => Some(AbsReal(-b as real))
    case _ => None
  }

  /** The distance of an element from its expected value (utils.js:488-502):
      float32 compares `getBitwise` of both, float16 the raw actual with
      `toHalf(expected)`, int64 the BigInt actual with `BigInt(expected)`. No other
      data type assigns the operands, so their difference is NaN (None). */
  function ItemDistance(item: Item, e: JsNumber, dataType: DataType, env: Env): (r: Result<Option<real>, Error>)
    requires Numeric(if item.Value? then [item.scalar] else item.buffer, dataType)
    ensures r.Err? ==> dataType == Int64
    ensures dataType == Int64 && BigIntOf(e).None? ==> r == Err(NotAnInteger(e))
    ensures dataType == Int64 && BigIntOf(e).Some? ==>
      (r.Ok? <==> item.Value? && item.scalar.Big?)
    ensures dataType == Int64 && r.Err? && BigIntOf(e).Some? ==> r.error == MixedBigIntAndNumber
    ensures dataType != Float32 && dataType != Float16 && dataType != Int64 ==> r == Ok(None)
  {
    match dataType
    case Float32 =>
      assert item.Value? ==> [item.scalar][0] == item.scalar;
      var a := GetBitwise(NumberOf(item), Float32, env).value;
      var b := GetBitwise(e, Float32, env).value;
      Ok(Some(AbsReal((a - b) as real)))
    case Float16 =>
      assert item.Value? ==> [item.scalar][0] == item.scalar;
      Ok(Difference(NumberOf(item), HalfOf(e, env) as int))
    case Int64 =>
      if BigIntOf(e).None? then Err(NotAnInteger(e))
      else if item.Value? && item.scalar.Big? then
        Ok(Some(AbsReal((item.scalar.big - BigIntOf(e).value) as real)))
      else Err(MixedBigIntAndNumber)
    case _ => Ok(None)
  }

  /** `distance <= nulp`: false where either is NaN or undefined. */
  predicate Within(distance: Option<real>, nulp: Option<real>)
  {
    distance.Some? && nulp.Some? && distance.value <= nulp.value
  }

  /** One step of the loop: an element `===` its expected value passes; otherwise
      its distance must be within `nulp`, or `assert_true` fails at index k. */
  function ItemCheck(item: Item, e: JsNumber, k: nat, nulp: Option<real>, dataType: DataType, env: Env): Result<(), Error>
    requires Numeric(if item.Value? then [item.scalar] else item.buffer, dataType)
  {
    if Identical(item, e) then Ok(())
    else
      var distance :- ItemDistance(item, e, dataType, env);
      if Within(distance, nulp) then Ok(()) else Err(TooFar(k, distance))
  }

  /** The loop step at index k of the arrays. */
  function ElementResult(actual: Actual, expected: seq<JsNumber>, k: nat, nulp: Option<real>, dataType: DataType, env: Env): Result<(), Error>
    requires Numeric(actual.buffer, dataType)
    requires k < actual.Length() && k < |expected|
  {
    var item := ItemAt(actual, k);
    assert item.Value? ==> item.scalar == actual.buffer[k];
    ItemCheck(item, expected[k], k, nulp, dataType, env)
  }

  /** The loop of `assert_array_approx_equals_ulp` from index i on: it passes when
      every step passes, and otherwise ends with the failure of the first step that
      fails. */
  function UlpFrom(actual: Actual, expected: seq<JsNumber>, i: nat, nulp: Option<real>, dataType: DataType, env: Env): (r: Result<(), Error>)
    requires Numeric(actual.buffer, dataType)
    requires actual.Length() == |expected| && i <= |expected|
    ensures r.Ok? <==> forall k | i <= k < |expected| :: ElementResult(actual, expected, k, nulp, dataType, env).Ok?
    ensures r.Err? ==> exists k | i <= k < |expected| ::
      && ElementResult(actual, expected, k, nulp, dataType, env) == r
      && forall j | i <= j < k :: ElementResult(actual, expected, j, nulp, dataType, env).Ok?
    decreases |expected| - i
  {
    if i == |expected| then Ok(())
    else
      var step := ElementResult(actual, expected, i, nulp, dataType, env);
      if step.Err? then step else UlpFrom(actual, expected, i + 1, nulp, dataType, env)
  }

  /** `assert_array_approx_equals_ulp(actual, expected, nulp, dataType)`: the lengths
      must agree, then every element must be `===` its expected value or within
      `nulp` of it; the first failure ends the check. */
  function AssertArrayApproxEqualsUlp(actual: Actual, expected: seq<JsNumber>, nulp: Option<real>, dataType: DataType, env: Env): (r: Result<(), Error>)
    requires Numeric(actual.buffer, dataType)
    ensures actual.Length() != |expected| ==> r == Err(LengthsDiffer(|expected|, actual.Length()))
    ensures r.Ok? <==>
      && actual.Length() == |expected|
      && forall k | 0 <= k < |expected| :: ElementResult(actual, expected, k, nulp, dataType, env).Ok?
    ensures r.Err? && actual.Length() == |expected| ==> exists k | 0 <= k < |expected| ::
      && ElementResult(actual, expected, k, nulp, dataType, env) == r
      && forall j | 0 <= j < k :: ElementResult(actual, expected, j, nulp, dataType, env).Ok?
  {
    if actual.Length() != |expected| then Err(LengthsDiffer(|expected|, actual.Length()))
    else UlpFrom(actual, expected, 0, nulp, dataType, env)
  }

  // ---------------------------------------------------------------------------
  // What an element step decides, per data type

  /** A float32 element passes exactly when it is `===` its expected value or their
      `getBitwise` values are within `nulp`. */
  lemma Float32ItemPasses(x: JsNumber, e: JsNumber, k: nat, nulp: Option<real>, env: Env)
    ensures ItemCheck(Value(Num(x)), e, k, nulp, Float32, env).Ok? <==>
      || StrictEquals(x, e)
      || (nulp.Some? && AbsReal((GetBitwise(x, Float32, env).value - GetBitwise(e, Float32, env).value) as real) <= nulp.value)
  {
    Float32Distance(x, e, env);
  }

  lemma Float32Distance(x: JsNumber, e: JsNumber, env: Env)
    ensures ItemDistance(Value(Num(x)), e, Float32, env)
         == Ok(Some(AbsReal((GetBitwise(x, Float32, env).value - GetBitwise(e, Float32, env).value) as real)))
  {
    assert NumberOf(Value(Num(x))) == x;
  }

  /** A float16 element, a Uint16Array entry, passes exactly when it is `===` its
      expected value or within `nulp` of `toHalf(expected)` as a plain number. */
  lemma Float16ItemPasses(x: real, e: JsNumber, k: nat, nulp: Option<real>, env: Env)
    ensures ItemCheck(Value(Num(Finite(x))), e, k, nulp, Float16, env).Ok? <==>
      || StrictEquals(Finite(x), e)
      || (nulp.Some? && AbsReal(x - HalfOf(e, env) as real) <= nulp.value)
  {
  }

  /** An int64 element, a BigInt, is never `===` a number: it passes exactly when the
      expected value is an integer within `nulp` of it, and an expected value that is
      not an integer throws. */
  lemma Int64ItemPasses(b: int, e: JsNumber, k: nat, nulp: Option<real>, env: Env)
    ensures BigIntOf(e).None? ==> ItemCheck(Value(Big(b)), e, k, nulp, Int64, env) == Err(NotAnInteger(e))
    ensures ItemCheck(Value(Big(b)), e, k, nulp, Int64, env).Ok? <==>
      BigIntOf(e).Some? && nulp.Some? && AbsReal((b - BigIntOf(e).value) as real) <= nulp.value
  {
  }

  /** For any other data type an element that is not `===` its expected value fails,
      whatever `nulp` is. */
  lemma OtherTypesNeedIdentity(item: Item, e: JsNumber, k: nat, nulp: Option<real>, dataType: DataType, env: Env)
    requires dataType != Float32 && dataType != Float16 && dataType != Int64
    ensures ItemCheck(item, e, k, nulp, dataType, env)
         == if Identical(item, e) then Ok(()) else Err(TooFar(k, None))
  {
  }

  /** A float32 NaN output matches a NaN expected value when `nulp` is not negative:
      NaN is not `===` NaN, but both store the same pattern. */
  lemma Float32NaNMatchesNaN(k: nat, nulp: Option<real>, env: Env)
    ensures ItemCheck(Value(Num(NaN)), NaN, k, nulp, Float32, env).Ok? <==> nulp.Some? && nulp.value >= 0.0
  {
  }

  /** `toHalf` turns a NaN expected value into the infinity pattern 0x7c00, so the
      usual quiet NaN 0x7e00 in a float16 output is 512 away from it. */
  lemma Float16NaNExpected(k: nat, nulp: Option<real>, env: Env)
    requires Half.IsFloat32NaN(env.nanPattern) && env.nanPattern >> 31 == 0
    ensures ItemCheck(Value(Num(Finite(0x7e00 as real))), NaN, k, nulp, Float16, env).Ok?
        <==> nulp.Some? && nulp.value >= 512.0
  {
    HalfOfNaN(env);
  }

  /** Raising `nulp` never turns a passing comparison into a failing one. */
  lemma UlpMonotone(actual: Actual, expected: seq<JsNumber>, nulp: Option<real>, looser: Option<real>, dataType: DataType, env: Env)
    requires Numeric(actual.buffer, dataType)
    requires AssertArrayApproxEqualsUlp(actual, expected, nulp, dataType, env).Ok?
    requires nulp.Some? && looser.Some? && nulp.value <= looser.value
    ensures AssertArrayApproxEqualsUlp(actual, expected, looser, dataType, env).Ok?
  {
    forall k | 0 <= k < |expected|
      ensures ElementResult(actual, expected, k, looser, dataType, env).Ok?
    {
      assert ElementResult(actual, expected, k, nulp, dataType, env).Ok?;
    }
  }

  /** An output buffer that holds exactly the expected numbers passes whatever `nulp`
      is, undefined included, when none of them is a NaN. Float32, int32, uint32,
      int8 and uint8 outputs are arrays of numbers; int64 and float16 outputs are not,
      and the two lemmas below state what they need. */
  lemma IdenticalOutputPasses(expected: seq<JsNumber>, nulp: Option<real>, dataType: DataType, env: Env)
    requires forall k | 0 <= k < |expected| :: expected[k] != NaN
    ensures var actual := Elements(seq(|expected|, k requires 0 <= k < |expected| => Num(expected[k])));
      AssertArrayApproxEqualsUlp(actual, expected, nulp, dataType, env).Ok?
  {
    var actual := Elements(seq(|expected|, k requires 0 <= k < |expected| => Num(expected[k])));
    forall k | 0 <= k < |expected|
      ensures ElementResult(actual, expected, k, nulp, dataType, env).Ok?
    {
      assert actual.buffer[k] == Num(expected[k]);
      assert StrictEquals(expected[k], expected[k]);
    }
  }

  /** An int64 output is a BigInt64Array. One that holds exactly the expected
      integers is never `===` them, so it passes only through the distance: exactly
      when `nulp` is defined and not negative, unless there is nothing to compare. */
  lemma Int64ExactOutput(expected: seq<JsNumber>, nulp: Option<real>, env: Env)
    requires forall k | 0 <= k < |expected| :: BigIntOf(expected[k]).Some?
    ensures var actual := Elements(seq(|expected|, k requires 0 <= k < |expected| => Big(BigIntOf(expected[k]).value)));
      AssertArrayApproxEqualsUlp(actual, expected, nulp, Int64, env).Ok?
      <==> |expected| == 0 || (nulp.Some? && nulp.value >= 0.0)
  {
    var actual := Elements(seq(|expected|, k requires 0 <= k < |expected| => Big(BigIntOf(expected[k]).value)));
    forall k | 0 <= k < |expected|
      ensures ElementResult(actual, expected, k, nulp, Int64, env).Ok? <==> nulp.Some? && nulp.value >= 0.0
    {
      assert actual.buffer[k] == Big(BigIntOf(expected[k]).value);
      Int64ItemPasses(BigIntOf(expected[k]).value, expected[k], k, nulp, env);
    }
    if |expected| > 0 {
      assert ElementResult(actual, expected, 0, nulp, Int64, env).Ok? <==> nulp.Some? && nulp.value >= 0.0;
    }
  }

  /** A float16 output is a Uint16Array: the best it can hold for an expected value
      is `toHalf` of it, cut to 16 bits by the store. An element passes when it is
      `===` the expected number or when `nulp` covers what the store cut off, so an
      output holding the patterns passes for any `nulp` that is not negative as long
      as every `toHalf` result fits in 16 bits. */
  lemma Float16ExactOutput(expected: seq<JsNumber>, nulp: Option<real>, env: Env)
    ensures var actual := Elements(seq(|expected|, k requires 0 <= k < |expected| => Num(Finite(ToUint16(HalfOf(expected[k], env)) as real))));
      AssertArrayApproxEqualsUlp(actual, expected, nulp, Float16, env).Ok?
      <==> forall k | 0 <= k < |expected| ::
             || StrictEquals(Finite(ToUint16(HalfOf(expected[k], env)) as real), expected[k])
             || (nulp.Some? && (HalfOf(expected[k], env) - ToUint16(HalfOf(expected[k], env))) as real <= nulp.value)
    ensures var actual := Elements(seq(|expected|, k requires 0 <= k < |expected| => Num(Finite(ToUint16(HalfOf(expected[k], env)) as real))));
      (forall k | 0 <= k < |expected| :: HalfOf(expected[k], env) < 0x1_0000) && nulp.Some? && nulp.value >= 0.0
      ==> AssertArrayApproxEqualsUlp(actual, expected, nulp, Float16, env).Ok?
  {
    var actual := Elements(seq(|expected|, k requires 0 <= k < |expected| => Num(Finite(ToUint16(HalfOf(expected[k], env)) as real))));
    forall k | 0 <= k < |expected|
      ensures ElementResult(actual, expected, k, nulp, Float16, env).Ok? <==>
        || StrictEquals(Finite(ToUint16(HalfOf(expected[k], env)) as real), expected[k])
        || (nulp.Some? && (HalfOf(expected[k], env) - ToUint16(HalfOf(expected[k], env))) as real <= nulp.value)
    {
      var h := HalfOf(expected[k], env);
      assert actual.buffer[k] == Num(Finite(ToUint16(h) as real));
      Float16ItemPasses(ToUint16(h) as real, expected[k], k, nulp, env);
      assert ToUint16(h) <= h;
      assert AbsReal(ToUint16(h) as real - h as real) == (h - ToUint16(h)) as real;
    }
  }

  // ---------------------------------------------------------------------------
  // doAssert

  /** The arguments of the assertion: a scalar expected value wraps both sides in
      one-element arrays (utils.js:524-528). */
  function Compared(actual: seq<Scalar>, expected: Data): (r: (Actual, seq<JsNumber>))
    ensures expected.Single? ==> r.0.Length() == 1 == |r.1| && r.1[0] == expected.number
    ensures expected.Many? ==> r.0 == Elements(actual) && r.1 == expected.numbers
    ensures r.0.buffer == actual
  {
    match expected
    case Single(x) => (Wrapped(actual), [x])
    case Many(xs) => (Elements(actual), xs)
  }

  /** `doAssert`: the ULP assertion for the ULP metric, the harness's
      absolute-tolerance assertion for ATOL. */
  function DoAssert(metric: Metric, actual: seq<Scalar>, expected: Data, tolerance: Option<real>, dataType: DataType, env: Env): (r: Result<(), Error>)
    requires Numeric(actual, dataType)
    ensures metric == ATOL ==>
      (r.Ok? <==> env.approxEquals(Compared(actual, expected).0, Compared(actual, expected).1, tolerance))
    ensures metric == ATOL && r.Err? ==> r.error == NotApproxEqual
    ensures metric == ULP ==>
      r == AssertArrayApproxEqualsUlp(Compared(actual, expected).0, Compared(actual, expected).1, tolerance, dataType, env)
  {
    var (a, e) := Compared(actual, expected);
    match metric
    case ULP => AssertArrayApproxEqualsUlp(a, e, tolerance, dataType, env)
    case ATOL => if env.approxEquals(a, e, tolerance) then Ok(()) else Err(NotApproxEqual)
  }

  /** Under the ULP metric a list of expected numbers passes exactly when the output
      has as many elements and each passes against the number at its index; a
      different length fails on the length check. A single expected number is
      compared once, with the whole output as the actual element. */
  lemma DoAssertUlpVerdict(actual: seq<Scalar>, expected: Data, nulp: Option<real>, dataType: DataType, env: Env)
    requires Numeric(actual, dataType)
    ensures expected.Many? && |actual| != |expected.numbers| ==>
      DoAssert(ULP, actual, expected, nulp, dataType, env) == Err(LengthsDiffer(|expected.numbers|, |actual|))
    ensures expected.Many? ==>
      (DoAssert(ULP, actual, expected, nulp, dataType, env).Ok? <==>
        && |actual| == |expected.numbers|
        && forall k | 0 <= k < |actual| :: ItemCheck(Value(actual[k]), expected.numbers[k], k, nulp, dataType, env).Ok?)
    ensures expected.Single? ==>
      DoAssert(ULP, actual, expected, nulp, dataType, env) == ItemCheck(Whole(actual), expected.number, 0, nulp, dataType, env)
  {
    if expected.Many? && |actual| == |expected.numbers| {
      forall k | 0 <= k < |actual|
        ensures ElementResult(Elements(actual), expected.numbers, k, nulp, dataType, env)
             == ItemCheck(Value(actual[k]), expected.numbers[k], k, nulp, dataType, env)
      {
      }
    }
    if expected.Single? {
      var (a, xs) := Compared(actual, expected);
      assert DoAssert(ULP, actual, expected, nulp, dataType, env) == UlpFrom(a, xs, 0, nulp, dataType, env);
      assert UlpFrom(a, xs, 1, nulp, dataType, env) == Ok(());
    }
  }

  /** A scalar int64 result always throws under the ULP metric: the wrapped array
      minus a BigInt mixes types, unless `BigInt(expected)` throws first. */
  lemma Int64ScalarThrows(actual: seq<Scalar>, e: JsNumber, nulp: Option<real>, env: Env)
    ensures DoAssert(ULP, actual, Single(e), nulp, Int64, env).Err?
  {
    var (a, xs) := Compared(actual, Single(e));
    assert !ElementResult(a, xs, 0, nulp, Int64, env).Ok?;
  }

  /** A scalar float32 result is compared through its string form: -0 prints as "0",
      so a -0 result is 2^31 away from a -0 expected value. */
  lemma ScalarNegativeZero(nulp: Option<real>, env: Env)
    ensures DoAssert(ULP, [Num(NegativeZero)], Single(NegativeZero), nulp, Float32, env).Ok?
        <==> nulp.Some? && nulp.value >= 0x8000_0000 as real
  {
    var (a, xs) := Compared([Num(NegativeZero)], Single(NegativeZero));
    assert NumberOf(ItemAt(a, 0)) == Finite(0.0);
    GetBitwiseNegativeZero(env);
  }
}
