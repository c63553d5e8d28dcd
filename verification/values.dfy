/** The JavaScript values the verification helpers handle: numbers, BigInts,
    typed-array elements, the operand data types of the WebNN specification, and
    the exceptions the helpers can end in. Host behaviour the helpers rely on but
    that is not written in the repository (IEEE 754 rounding to binary32, the
    narrowing typed-array constructors, the test harness's absolute-tolerance
    assertion) is supplied by an `Env`. */
module Values {
  import opened Wrappers
  import Half

  /** Operand data types (utils.js:4-14). */
  datatype DataType = Float32 | Float16 | Int32 | Uint32 | Int8 | Uint8 | Int64

  /** Precision metric of an operator: maximum distance in units in the last place,
      or maximum absolute difference. */
  datatype Metric = ULP | ATOL

  /** A JavaScript number. `Finite(0.0)` is +0; -0 is `NegativeZero`. */
  datatype JsNumber = Finite(value: real) | NegativeZero | Infinity(negative: bool) | NaN

  /** An element read from a typed array: a number, or a BigInt read from a
      BigInt64Array. */
  datatype Scalar = Num(number: JsNumber) | Big(big: int)

  /** The `actual` argument of the ULP assertion: the output buffer itself, or, when
      the expected value is a single number, a one-element array whose element is
      the whole buffer (utils.js:524-528). */
  datatype Actual = Elements(buffer: seq<Scalar>) | Wrapped(buffer: seq<Scalar>) {
    /** `actual.length` */
    function Length(): nat { if Elements? then |buffer| else 1 }
  }

  /** Host behaviour that is not part of the repository. */
  datatype Env = Env(
    /** binary32 pattern that a Float32Array store writes for a nonzero finite
        double (round to nearest, ties to even; IEEE 754 section 4.3) */
    float32Of: real -> bv32,
    /** the NaN pattern a Float32Array store writes; implementation-chosen */
    nanPattern: bv32,
    /** value read back after storing a number into a Float32Array, Int32Array,
        Uint32Array, Int8Array or Uint8Array */
    narrow: (DataType, JsNumber) -> JsNumber,
    /** the test harness's `assert_array_approx_equals(actual, expected, tolerance)`
        holds */
    approxEquals: (Actual, seq<JsNumber>, Option<real>) -> bool)

  /** What a helper throws. The first two are `assert_true` failures of the ULP
      assertion; the rest are the errors the code raises or runs into. */
  datatype Error =
    | LengthsDiffer(expectedLength: nat, actualLength: nat)
    | TooFar(index: nat, distance: Option<real>)
    | NotApproxEqual
    | UnsupportedDataType(dataType: DataType)
    | UnknownOperation(name: string)
    | MetricNotListed(name: string, metric: Metric)
    | MissingInput(index: nat)
    | MissingOutput(name: string)
    | MissingShape(name: string)
    | EmptyExpectedList
    | NoExpectedData(name: string)
    | UnsupportedInputLayout(layout: string)
    | UnsupportedFilterLayout(layout: string)
    | ReduceOfEmptyArray
    | NotAnInteger(number: JsNumber)
    | MixedBigIntAndNumber
    | InvalidLength(number: JsNumber)

  /** `a === b` on numbers: NaN equals nothing, the two zeros are equal. */
  predicate StrictEquals(a: JsNumber, b: JsNumber)
  {
    match (a, b)
    case (Finite(x), Finite(y)) => x == y
    case (Finite(x), NegativeZero) => x == 0.0
    case (NegativeZero, Finite(y)) => y == 0.0
    case (NegativeZero, NegativeZero) => true
    case (Infinity(p), Infinity(q)) => p == q
    case _ => false
  }

  /** `value < 0`: false for -0 and NaN. */
  predicate IsNegative(n: JsNumber)
  {
    match n
    case Finite(x) => x < 0.0
    case Infinity(negative) => negative
    case _ => false
  }

  /** The binary32 pattern of a number after a Float32Array store
      (utils.js:958-959, 464). Zeros and infinities have fixed patterns. */
  function Float32Bits(n: JsNumber, env: Env): (b: bv32)
    ensures n == NegativeZero ==> b == 0x8000_0000
    ensures n == Finite(0.0) ==> b == 0
    ensures n.Infinity? ==> Half.ExponentOf(b) == 0xff && Half.FractionOf(b) == 0
    ensures n.Infinity? ==> (b >> 31 == 1 <==> n.negative)
  {
    match n
    case Finite(x) => if x == 0.0 then 0 else env.float32Of(x)
    case NegativeZero => 0x8000_0000
    case Infinity(negative) => if negative then 0xff80_0000 else 0x7f80_0000
    case NaN => env.nanPattern
  }

  /** The number `toHalf(value)` returns: `ToHalf` of the value's binary32 pattern.
      It is below 2^23 and, except on the overflow path, a binary16 pattern. */
  function HalfOf(n: JsNumber, env: Env): (h: nat)
    ensures h < 0x80_0000
  {
    var h := Half.ToHalf(Float32Bits(n, env));
    assert h < 0x80_0000;
    h as nat
  }

  /** `toHalf` on the two zeros and the infinities. */
  lemma HalfOfSpecialValues(env: Env)
    ensures HalfOf(Finite(0.0), env) == 0x0000
    ensures HalfOf(NegativeZero, env) == 0x8000
    ensures HalfOf(Infinity(false), env) == 0x7c00
    ensures HalfOf(Infinity(true), env) == 0xfc00
  {
    Half.ToHalfSignedZeros();
    Half.ToHalfInfinityOrNaN(0x7f80_0000);
    Half.ToHalfInfinityOrNaN(0xff80_0000);
  }

  /** A NaN becomes the binary16 infinity of its pattern's sign, never a binary16 NaN. */
  lemma HalfOfNaN(env: Env)
    requires Half.IsFloat32NaN(env.nanPattern)
    ensures HalfOf(NaN, env) == (if env.nanPattern >> 31 == 1 then 0xfc00 else 0x7c00)
  {
    Half.ToHalfInfinityOrNaN(env.nanPattern);
  }

  /** Stores into a Uint16Array reduce a non-negative integer modulo 2^16 (ECMAScript
      ToUint16). */
  function ToUint16(v: nat): (r: nat)
    ensures r < 0x1_0000
    ensures v < 0x1_0000 ==> r == v
  {
    v % 0x1_0000
  }

  /** Stores into a BigInt64Array wrap modulo 2^64 into the signed range (ECMAScript
      ToBigInt64). */
  function AsInt64(i: int): (r: int)
    ensures -0x8000_0000_0000_0000 <= r < 0x8000_0000_0000_0000
    ensures (r - i) % 0x1_0000_0000_0000_0000 == 0
    ensures -0x8000_0000_0000_0000 <= i < 0x8000_0000_0000_0000 ==> r == i
  {
    (i + 0x8000_0000_0000_0000) % 0x1_0000_0000_0000_0000 - 0x8000_0000_0000_0000
  }

  predicate IsIntegral(x: real) { x == x.Floor as real }

  /** `BigInt(n)`: None where it throws a RangeError (a fraction, NaN, an infinity). */
  function BigIntOf(n: JsNumber): (r: Option<int>)
    ensures r.Some? <==> (n.Finite? && IsIntegral(n.value)) || n == NegativeZero
    ensures r.Some? && n.Finite? ==> r.value as real == n.value
    ensures n == NegativeZero ==> r == Some(0)
  {
    match n
    case Finite(x) => if IsIntegral(x) then Some(x.Floor) else None
    case NegativeZero => Some(0)
    case _ => None
  }

  /** Truncation toward zero. */
  function Truncate(x: real): (i: int)
    ensures x >= 0.0 ==> 0 <= i && i as real <= x < i as real + 1.0
    ensures x < 0.0 ==> i <= 0 && i as real - 1.0 < x <= i as real
  {
    if x >= 0.0 then x.Floor else -((-x).Floor)
  }

  /** ECMAScript ToIndex, as a typed-array constructor applies it to a number
      argument: None where it throws a RangeError. */
  function ToIndex(n: JsNumber): (r: Option<nat>)
    ensures n.Infinity? ==> r == None
    ensures n.Finite? && n.value >= 0.0 && n.value < 0x20_0000_0000_0000 as real ==> r.Some?
    ensures n.Finite? && n.value <= -1.0 ==> r == None
  {
    match n
    case Finite(x) =>
      var i := Truncate(x);
      if 0 <= i <= 0x1f_ffff_ffff_ffff then Some(i) else None
    case Infinity(_) => None
    case _ => Some(0)
  }

  /** The number a typed array converts to when used as a number operand: the number
      its string form parses as (elements joined by commas). One element keeps its
      value except that -0 prints as "0"; none gives 0; more give NaN. */
  function NumberOfBuffer(buffer: seq<Scalar>): (n: JsNumber)
    requires forall k | 0 <= k < |buffer| :: buffer[k].Num?
    ensures |buffer| > 1 ==> n == NaN
    ensures |buffer| == 1 ==> StrictEquals(n, buffer[0].number) || (n == NaN && buffer[0].number == NaN)
    ensures n != NegativeZero
  {
    if |buffer| == 0 then Finite(0.0)
    else if |buffer| == 1 then
      (if buffer[0].number == NegativeZero then Finite(0.0) else buffer[0].number)
    else NaN
  }

  /** `s.indexOf(x)`: the position of the first occurrence of `x` in `s`, or -1. */
  function IndexOf(s: string, x: char): (i: int)
    ensures -1 <= i < |s|
    ensures i >= 0 ==> s[i] == x && forall j | 0 <= j < i :: s[j] != x
    ensures i == -1 ==> forall j | 0 <= j < |s| :: s[j] != x
  {
    if |s| == 0 then -1
    else if s[0] == x then 0
    else var i := IndexOf(s[1..], x); if i == -1 then -1 else i + 1
  }
}
