# WebNN result verification, modelled in Dafny

The WebNN conformance tests of the web-platform-tests suite share one helper
library, `webnn/resources/utils.js`. For every test case it:

- materialises the fixture data as typed arrays;
- sizes the output buffers the graph writes into;
- looks up, per operator and data type, the precision metric and tolerance;
- compares each computed output with its expected data: ULP distance on the bit
  patterns (binary32, binary16 via `toHalf`, int64), or an absolute tolerance.

This project models that library as pure Dafny functions and proves what the
comparison promises.

Modules, one per concern of the library:

- `Values`: the JavaScript values involved. These are numbers with -0, infinities and NaN; BigInts; and the elements of typed arrays.
  - The operand data types and the errors the helpers can end in.
  - Host conversions: `ToUint16`, `AsInt64` (BigInt64 wrap-around), `BigIntOf` (`BigInt(n)`) and `ToIndex`.
  - Host behaviour that the repository does not define is an `Env` parameter: IEEE 754 rounding to binary32, the NaN pattern a store writes, narrowing typed-array stores, and the harness's `assert_array_approx_equals`.
- `Half`: `toHalf` on the binary32 bit pattern, exactly as written, over `bv32`. Also a reference widening `FromHalf` (binary16 to binary32) against which `toHalf` is proved to round-trip.
- `Shapes`: `sizeOfShape`.
- `Names`: the camelCase-to-snake_case mapping from an operator name to its fixture file.
- `Fixtures`: the fixture records and `getTypedArrayData`. Also the expected data with its broadcast cap (`getExpectedDataAndType`), and the input and output buffers of `buildGraph`.
- `Tolerance`: the per-operator table `PrecisionMetrics` (one `Row` per operator), the dynamic formulas (convolutions, gemm, matmul, pooling, softmax, reductions, resample2d) and the resolver `getPrecisonTolerance`.
  - A tolerance is an `Option<real>`. `None` stands for `undefined`, and for the NaN that arithmetic on `undefined` produces.
- `Ulp`: `getBitwise`, `assert_array_approx_equals_ulp` and `doAssert`.
- `Check`: `checkResults`. Each output is cut to its first 1000 elements and compared under the operator's metric. For a list of outputs, the first failure ends the check.

Behaviour of the code that the model keeps, and that lemmas exhibit:

- `toHalf` maps a NaN to the infinity of its sign: at line 976, `(e == 255 ? 0 : 1) && …` is 0. For biased exponents 143 to 254 it ORs the raw 23-bit fraction into the infinity pattern, so the result can exceed 16 bits. `Half.ToHalfOverflowExample` gives 0x4781_0000 ↦ 0x1_7c00. Stored into a Uint16Array, such a result keeps only its low 16 bits, and a finite positive value can then read as binary16 -Inf or a NaN. `Half.ToHalfOverflowStored` shows 65792.0 (0x4780_8000) keeping 0xfc00 and 0x4780_0001 keeping 0x7c01.
- `getBitwise(-0)` is 2^31, because `-0 < 0` is false. A positive value and a negative one are always at least 2^23 apart.
- The 1000-element cap applies to the computed output only. Under the ULP metric, an expected list written out with more than 1000 numbers therefore fails on length.
- A scalar expected value wraps the whole output buffer as the single actual element. That element is never `===` a number. For int64 it throws (BigInt mixed with Number); for float32 it is coerced through its string form.
- The resample2d formula reads `resources.expected.type`, which is undefined when the expected value is a list, so linear mode then gives 1.

## Model

| member | source | states |
|---|---|---|
| Values.Float32Bits | webnn/resources/utils.js:958-959 | a Float32Array store writes 0 for +0, 0x8000_0000 for -0, and the signed all-ones-exponent, zero-fraction pattern for an infinity |
| Values.HalfOf | webnn/resources/utils.js:950-959 | `toHalf(value)` is `ToHalf` of the value's binary32 pattern and is below 2^23 |
| Values.HalfOfSpecialValues | webnn/resources/utils.js:961-977 | `toHalf` gives 0x0000 for +0, 0x8000 for -0, 0x7c00 for +Inf and 0xfc00 for -Inf |
| Values.HalfOfNaN | webnn/resources/utils.js:971-977 | a NaN becomes the binary16 infinity of its pattern's sign, never a binary16 NaN |
| Values.ToUint16 | webnn/resources/utils.js:33-38 | a store into a Uint16Array yields a value below 2^16, the stored value itself when that is already below 2^16 |
| Values.AsInt64 | webnn/resources/utils.js:42-46 | a store into a BigInt64Array yields a value in the signed 64-bit range, congruent to the stored one modulo 2^64 and equal to it when in range |
| Values.BigIntOf | webnn/resources/utils.js:42-46 | `BigInt(n)` is defined exactly for integral finite numbers and -0, with the same value; it throws otherwise |
| Values.ToIndex | webnn/resources/utils.js:52 | a typed-array length argument is rejected for infinities and for values at or below -1, and accepted for non-negative values below 2^53 |
| Values.NumberOfBuffer | webnn/resources/utils.js:524-528 | a wrapped buffer used as a number is NaN for more than one element, the element for exactly one, and never -0 |
| Values.IndexOf | webnn/resources/utils.js:83 | `indexOf` is the position of the first occurrence, or -1 exactly when the character does not occur |
| Half.ToHalf | webnn/resources/utils.js:950-994 | the result is below 2^23; for exponents up to 142, or exactly 255, it is a binary16 pattern whose sign bit is the input's; above 142 the infinity bits are set |
| Half.FromHalf | webnn/resources/utils.js:950-994 | reference widening of binary16 to binary32: keeps the sign, and gives a binary32 NaN exactly for a binary16 NaN |
| Half.ToHalfFromHalf | webnn/resources/utils.js:950-994 | `toHalf` inverts the exact widening on every binary16 pattern except the NaNs |
| Half.ToHalfFromHalfNaN | webnn/resources/utils.js:971-977 | a widened binary16 NaN does not round-trip: it comes back as the infinity of its sign |
| Half.ToHalfUnderflow | webnn/resources/utils.js:961-969 | a biased exponent below 103 yields only the sign bit |
| Half.ToHalfSignedZeros | webnn/resources/utils.js:961-969 | +0 maps to 0x0000 and -0 to 0x8000 |
| Half.ToHalfInfinityOrNaN | webnn/resources/utils.js:971-977 | exponent 255 yields exactly sign OR 0x7c00, a binary16 infinity, never a NaN |
| Half.ToHalfOverflow | webnn/resources/utils.js:971-977 | exponents 143 to 254 yield sign OR 0x7c00 OR the raw 23-bit fraction, which leaves 16 bits when the fraction does |
| Half.ToHalfOverflowExample | webnn/resources/utils.js:971-977 | 0x4781_0000 (exponent 143) maps to 0x1_7c00, a 17-bit result |
| Half.ToHalfOverflowStored | webnn/resources/utils.js:971-977 | cut to 16 bits, the results for the finite positive 0x4780_8000 and 0x4780_0001 are 0xfc00 (binary16 -Inf) and 0x7c01 (a binary16 NaN) |
| Half.ToHalfNormalExact | webnn/resources/utils.js:961-993 | for exponents 113 to 142 with the low 13 fraction bits zero, the result is sign, then exponent minus 112, then the top 10 fraction bits |
| Half.ToHalfNormalRounding | webnn/resources/utils.js:989-993 | on the normal path the result is the magnitude plus half a binary16 ulp, shifted right by 13 and rebased, with the sign |
| Half.ToHalfTieAwayFromZero | webnn/resources/utils.js:989-993 | an exact tie rounds away from zero: 0x3f80_1000 maps to 0x3c01 |
| Half.ToHalfDenormal | webnn/resources/utils.js:980-987 | for exponents 103 to 112 the result is the sign with the 24-bit significand counted in units of 2^-24 and rounded half up: plus 2^(125-e), shifted right by 126-e; a carry gives 0x400 |
| Half.DenormalPathExact | webnn/resources/utils.js:980-987 | a binary32 value that is exactly a binary16 denormal maps to that denormal's pattern |
| Shapes.SizeOfShape | webnn/resources/utils.js:57-59 | the element count is 0 exactly when some dimension is 0, and otherwise bounds every dimension |
| Shapes.SizeOfShapeAppend | webnn/resources/utils.js:57-59 | the element count of a concatenation of shapes is the product of their counts |
| Names.Capitals | webnn/resources/utils.js:79 | the matches of `/[A-Z]/g` are capital letters, no more of them than the name has characters |
| Names.ReplaceFirst | webnn/resources/utils.js:83 | `replace` with a one-letter pattern leaves a string without the letter unchanged, and otherwise trades one character for the replacement |
| Names.Snake | webnn/resources/utils.js:79-85 | the reference mapping leaves no capital letters and lengthens the name by one per capital |
| Names.FixtureNameIsSnake | webnn/resources/utils.js:79-85 | replacing the first occurrence of each matched capital in turn converts every capital `X` to `_x` and changes nothing else |
| Names.CamelOfSnake | webnn/resources/utils.js:79-85 | for a name without underscores, reading `_x` back as `X` recovers the operator name |
| Names.SnakeAppend | webnn/resources/utils.js:79-85 | the mapping of a concatenation is the concatenation of the mappings |
| Fixtures.Repeat | webnn/resources/utils.js:49-50 | `fill(x)` over `n` places holds `n` copies of `x`: the typed-array fill here, and `new Array(size).fill(data)` at utils.js:105 and utils.js:571 |
| Fixtures.ToBigInts | webnn/resources/utils.js:44-47 | converting a list with `BigInt` succeeds exactly when every number converts, element by element; otherwise it throws on a number that does not convert |
| Fixtures.Float16Data | webnn/resources/utils.js:31-39 | float16 data holds `toHalf` of the broadcast number or of each element: integers in [0, 2^16) |
| Fixtures.Int64Data | webnn/resources/utils.js:40-47 | int64 data holds the wrapped `BigInt` of each source number; it throws exactly when a number it converts is not integral |
| Fixtures.NarrowedData | webnn/resources/utils.js:48-53 | other types broadcast or narrow element-wise; a lone number is a length, which gives zeros or throws a RangeError |
| Fixtures.GetTypedArrayData | webnn/resources/utils.js:28-55 | only int64 data or a lone number used as a length can throw; the length follows the data or the broadcast size; the buffer is well typed for its type |
| Fixtures.BroadcastIsElementwise | webnn/resources/utils.js:28-55 | broadcasting a number over more than one element gives the same buffer as the list repeating it |
| Fixtures.ExpectedDataOf | webnn/resources/utils.js:101-108 | a single number over a shape of more than one element becomes that many copies, capped at 1000; other data is kept |
| Fixtures.GetExpectedDataAndType | webnn/resources/utils.js:97-116 | the result is the data and type of the first record with the name; the lookup throws exactly when no record has it |
| Fixtures.OutputBuffers | webnn/resources/utils.js:864-876 | one expected record gets a buffer of its shape's size, or 1 without a shape; a list needs every shape, and its buffers are keyed by exactly the record names |
| Fixtures.SizedOutputs | webnn/resources/utils.js:865-870 | the list loop succeeds exactly when every record has a shape, and its keys are exactly the record names; the final record's size is stored under its name (every other record: `Fixtures.SizedOutputsHoldLastSize`) |
| Fixtures.SizedOutputsHoldLastSize | webnn/resources/utils.js:865-870 | for a list of records, every record whose name no later record takes gets a buffer of `sizeOfShape` of its own shape |
| Fixtures.GraphInputs | webnn/resources/utils.js:846-853 | the input map is built exactly when every non-constant input converts |
| Fixtures.GraphInputsKeys | webnn/resources/utils.js:846-853 | the map's keys are exactly the names of the non-constant inputs |
| Fixtures.GraphInputsHoldLastFed | webnn/resources/utils.js:848-852 | each name maps to the data of the last non-constant input with that name |
| Fixtures.GraphInputsFirstFailure | webnn/resources/utils.js:848-852 | a failure is that of the first non-constant input that does not convert |
| Tolerance.InputChannels | webnn/resources/utils.js:131-144 | channels are input axis 1, or 3 for "nhwc"; any other non-empty layout throws |
| Tolerance.FilterLayoutOf | webnn/resources/utils.js:132-152 | the filter layout defaults to oihw (iohw for convTranspose2d); a given layout not in the operator's list throws, and a listed one is used |
| Tolerance.FilterSpatialAxes | webnn/resources/utils.js:153-170 | the filter's width axis is its height axis plus one, and it throws exactly on an unlisted layout |
| Tolerance.Conv2dTolerance | webnn/resources/utils.js:124-175 | the convolution tolerance throws exactly on an unsupported input or filter layout (or a missing input) |
| Tolerance.ConvProduct | webnn/resources/utils.js:173 | the tolerance is filter width times filter height times channels per group, times 2; it is undefined when a dimension is |
| Tolerance.Conv2dReadsLayoutLetters | webnn/resources/utils.js:124-175 | whatever the supported layouts, the tolerance reads each dimension where its letter stands in the layout's name, with nchw and oihw/iohw as defaults and a falsy `groups` as 1 |
| Tolerance.AxesAtLetters | webnn/resources/utils.js:153-170 | the switch's axes for each filter layout are the positions of 'w' and 'h' in its name |
| Tolerance.GemmTolerance | webnn/resources/utils.js:183-205 | the gemm tolerance is defined exactly when A has the reduced dimension |
| Tolerance.GemmToleranceBounds | webnn/resources/utils.js:191-203 | the tolerance is 2 * width plus 1 each for a non-default alpha, an applied bias, and an applied bias with non-default beta; exactly 2 * width iff alpha is default and no bias applies |
| Tolerance.GemmZeroBetaIgnoresBias | webnn/resources/utils.js:197-203 | a bias scaled by a zero beta adds nothing to the tolerance |
| Tolerance.MatmulTolerance | webnn/resources/utils.js:213-220 | matmul's tolerance is twice the last dimension of A, undefined for a rank-0 A |
| Tolerance.Pool2dTolerance | webnn/resources/utils.js:228-250 | with `windowDimensions` the tolerance is defined exactly when at least two dimensions are given |
| Tolerance.Pool2dWindowTolerance | webnn/resources/utils.js:233-248 | with `windowDimensions` the tolerance is their product plus 2 |
| Tolerance.Pool2dLayoutsAgree | webnn/resources/utils.js:236-248 | without a window the tolerance is h * w + 2 for the same input in nchw or nhwc layout |
| Tolerance.SoftmaxTolerance | webnn/resources/utils.js:258-263 | softmax's tolerance is 3 * inputShape[1] + 3, independent of any option |
| Tolerance.AxisSize | webnn/resources/utils.js:277-279 | an axis reads the input size at the axis, a negative axis counted from the end; out of range it is undefined |
| Tolerance.ReducedSizes | webnn/resources/utils.js:275-282 | the sizes are the whole shape without axes, one size per axis otherwise |
| Tolerance.Product | webnn/resources/utils.js:283-285 | the reduced element count is defined exactly when every size is |
| Tolerance.ProductIsSizeOfShape | webnn/resources/utils.js:283-285 | reducing a non-empty shape without an initial value gives its element count |
| Tolerance.ReductionTolerance | webnn/resources/utils.js:271-312 | the reduction tolerance throws exactly on an empty size list, otherwise scales the reduced element count per operator |
| Tolerance.ReductionToleranceValues | webnn/resources/utils.js:271-312 | with n the reduced element count: n for L1, product and sum, 2n + 1 for L2, n + 2 for mean, n + 18 for log-sum, 2n + 18 for log-sum-exp, 2n for sum of squares |
| Tolerance.ReducedCountOfAxes | webnn/resources/utils.js:276-285 | with axes in range, negative axes select the same sizes as their non-negative counterparts, and the count is the selected dimensions' element count |
| Tolerance.ReductionOverAllAxes | webnn/resources/utils.js:276-282 | no axes is the same as listing every axis |
| Tolerance.ReductionFromCount | webnn/resources/utils.js:287-310 | the eight reductions define a tolerance from any defined count; other operators get none |
| Tolerance.Resample2dTolerance | webnn/resources/utils.js:320-338 | nearest-neighbour gives 0; linear gives 84 for float32, 10 for float16, 1 otherwise, and 1 for a list of expected records |
| Tolerance.Table | webnn/resources/utils.js:341-426 | every number the table writes is non-negative; absolute rows belong to the absolute operators with 1/1024 or 1/512; computed rows belong to the computed operators, and the reduction formula to the reductions |
| Tolerance.TableClasses | webnn/resources/utils.js:341-426 | the table measures by absolute tolerance exactly cos, erf, log, sin, tan, layerNormalization and tanh; it computes the tolerance exactly for the sixteen operators with functions, and uses the reduction function exactly for the eight reductions |
| Tolerance.PrecisionMetricsSound | webnn/resources/utils.js:341-426 | every fixed tolerance in the table is non-negative, and every integer type listed is compared exactly |
| Tolerance.PrecisionMetricsAbsolute | webnn/resources/utils.js:341-426 | an entry's metric is ATOL exactly for the absolute operators, with the two listed float tolerances 1/1024 or 1/512 |
| Tolerance.PrecisionMetricsComputed | webnn/resources/utils.js:341-426 | an entry is computed exactly for the operators with formulas; every other entry is all numbers |
| Tolerance.PrecisionMetricsReductions | webnn/resources/utils.js:402-411 | the reduction formula's entry is the entry of exactly the eight reductions |
| Tolerance.TabledReductionsAreDefined | webnn/resources/utils.js:283-311 | for an operator the table sends to the reduction function, a non-empty, defined list of sizes yields a defined tolerance |
| Tolerance.PrecisionType | webnn/resources/utils.js:437 | the data type comes from the single expected record, or from the first of a list; an empty list throws |
| Tolerance.Evaluate | webnn/resources/utils.js:439-442 | evaluating a table function can only fail on a missing input, an unsupported layout or an empty reduction |
| Tolerance.GetPrecisionTolerance | webnn/resources/utils.js:435-444 | unknown operators and metrics the entry does not list throw; otherwise the result is undefined for an unlisted type, the number for a fixed entry, and the formula's value for a function |
| Ulp.GetBitwise | webnn/resources/utils.js:454-466 | float32 values give their binary32 pattern, minus 2^32 when the value is negative; other types throw |
| Ulp.GetBitwiseNegativeZero | webnn/resources/utils.js:457-465 | -0 gives 2^31, because `-0 < 0` is false; +0 gives 0 |
| Ulp.GetBitwiseBySign | webnn/resources/utils.js:454-466 | for a value whose sign bit agrees with its sign, the result is the magnitude bits, negated by 2^31 for negative values |
| Ulp.SameSignDistance | webnn/resources/utils.js:492-504 | between values of the same sign the distance is the difference of their magnitude bits |
| Ulp.CrossSignDistance | webnn/resources/utils.js:492-504 | a non-negative value and a negative non-NaN value are 2^31 plus the difference of their magnitudes apart, so at least 2^23 |
| Ulp.ItemDistance | webnn/resources/utils.js:488-504 | only int64 can throw (a non-integral expected number, or a BigInt mixed with a Number); other types but the three measured have an undefined distance |
| Ulp.UlpFrom | webnn/resources/utils.js:487-508 | the loop passes exactly when every step from i on passes, else it ends with the first failing step |
| Ulp.AssertArrayApproxEqualsUlp | webnn/resources/utils.js:480-509 | unequal lengths fail first; the check passes exactly when every element passes, and otherwise reports the first failing index |
| Ulp.Float32ItemPasses | webnn/resources/utils.js:488-506 | a float32 element passes iff it is `===` its expected value or its `getBitwise` distance is within `nulp` |
| Ulp.Float16ItemPasses | webnn/resources/utils.js:495-506 | a float16 element passes iff it is `===` the expected value or its raw value is within `nulp` of `toHalf(expected)` |
| Ulp.Int64ItemPasses | webnn/resources/utils.js:499-506 | an int64 element passes iff `BigInt(expected)` is defined and within `nulp` of it; a non-integral expected value throws |
| Ulp.OtherTypesNeedIdentity | webnn/resources/utils.js:488-506 | for types other than float32, float16 and int64 an element passes iff it is `===` its expected value, whatever `nulp` is |
| Ulp.Float32NaNMatchesNaN | webnn/resources/utils.js:488-506 | a float32 NaN against an expected NaN passes iff `nulp` is defined and non-negative: they are not `===` but share one pattern |
| Ulp.Float16NaNExpected | webnn/resources/utils.js:495-506 | a float16 NaN output 0x7e00 against an expected NaN needs `nulp` of at least 512, since `toHalf(NaN)` is 0x7c00 |
| Ulp.UlpMonotone | webnn/resources/utils.js:505 | a check that passes under `nulp` passes under any looser tolerance |
| Ulp.IdenticalOutputPasses | webnn/resources/utils.js:484-489 | an output buffer holding exactly the NaN-free expected numbers passes whatever `nulp` is; this is the float32, int32, uint32, int8 and uint8 case, since those outputs hold numbers |
| Ulp.Int64ExactOutput | webnn/resources/utils.js:487-506 | an int64 output holding `BigInt` of each expected number is never `===` it, so a non-empty one passes iff `nulp` is defined and not negative |
| Ulp.Float16ExactOutput | webnn/resources/utils.js:487-506 | a float16 output holding the 16-bit store of `toHalf` of each expected number passes iff each element is `===` its number or `nulp` covers what the store cut off; so it passes for any non-negative `nulp` when every `toHalf` result fits in 16 bits |
| Ulp.Compared | webnn/resources/utils.js:524-528 | a scalar expected value is compared as one element against the whole buffer; a list is compared element-wise |
| Ulp.DoAssertUlpVerdict | webnn/resources/utils.js:522-534 | under ULP, an expected list passes iff the output has its length and each element passes against the number at its index, and fails on length otherwise; a single number is one comparison with the whole output |
| Ulp.Int64ScalarThrows | webnn/resources/utils.js:524-528 | a scalar int64 expected value always fails, since the wrapped buffer is a Number, not a BigInt |
| Ulp.ScalarNegativeZero | webnn/resources/utils.js:524-528 | a scalar -0 output against an expected -0 needs `nulp` of at least 2^31: the wrapped -0 prints as "0" |
| Check.Truncated | webnn/resources/utils.js:554-556 | an output is cut to its first 1000 elements, and a prefix of it is kept |
| Check.CompareOutputVerdict | webnn/resources/utils.js:564-577 | under ULP, an expected list passes iff its length is that of the output capped at 1000 and each of the output's first elements passes against the number at its index; a single number is compared once with the whole capped output |
| Check.CompareOutputReadsCappedPrefix | webnn/resources/utils.js:564-577 | two outputs whose first 1000 elements (all of them, if there are fewer) are the same get the same verdict |
| Check.OutputCheck | webnn/resources/utils.js:552-561 | a missing output or a name without expected data throws |
| Check.FirstFailure | webnn/resources/utils.js:552-561 | the sequence of checks passes exactly when each does, and otherwise fails with the first failure |
| Check.CheckResults | webnn/resources/utils.js:543-579 | an unknown operator throws; one record compares its output under the table's metric; a list passes exactly when every named output passes, and otherwise fails with the first failure |
| Check.MetricIsListed | webnn/resources/utils.js:544 | the metric `checkResults` picks is one the table lists, so the lookup never fails for want of it |
| Check.ElementsPastTheCapIgnored | webnn/resources/utils.js:554-566 | elements past the first 1000 of an output never change the verdict |
| Check.LongExpectedListFails | webnn/resources/utils.js:563-577 | an expected list of more than 1000 numbers under ULP fails on length |
| Check.BroadcastComparesCappedPrefix | webnn/resources/utils.js:567-571 | a single expected number over more than 1000 elements is compared with each of the output's first 1000 elements |

## Left out

- Loading fixtures over XMLHttpRequest and stripping comments from the JSON with a regular expression (utils.js:67-77, 87): this is I/O and JSON text handling.
- Building, compiling and running graphs: the `build*` functions, the operand creators, `run`, `testWebNNOperation`, `runWebNNConformanceTests`, and the buffer creation and destruction tests. They call into the browser's MLGraphBuilder and MLContext and register asynchronous harness tests. `buildGraph` is modelled only for the buffers it makes.
- The ATOL comparison: `assert_array_approx_equals` belongs to the test harness and is the `Env` predicate `approxEquals`.
- IEEE 754 rounding of a double to binary32 and the narrowing typed-array stores of int32, uint32, int8 and uint8: `Env` parameters. Finite numbers are exact reals, and tolerance arithmetic is exact real arithmetic. Float rounding of sizes and tolerances is not modelled.
- The message strings of `assert_true` and of the thrown errors: errors are a datatype with the values that matter.
- `getBitwise` reads the two 32-bit words of the BigInt64Array as a little-endian host does; a big-endian host is not modelled.
- Data-type strings outside the seven the library lists, and operator names outside the table: operator names are parsed to an `Operation` (`OperationNamed`), and an unknown name is an error.
- `namedOutputOperands` is given as the list of its keys in order. The operands themselves belong to the graph builder.
- `Check.CheckResults`, `Check.OutputCheck`, `Check.CompareOutput`: require that float32 and float16 output buffers hold numbers (`OutputsTyped`). The buffers come from `buildGraph`, which makes a Float32Array or a Uint16Array for those types.
- `Ulp.AssertArrayApproxEqualsUlp`, `Ulp.UlpFrom`, `Ulp.ItemDistance`, `Ulp.DoAssert`: require `Numeric` for the same reason. A buffer of BigInts passed for a float type is not modelled.
- `Values.ToIndex`: states its result only for non-negative values below 2^53, infinities and values at or below -1; the truncated in-range case is stated by its definition alone.
- `Tolerance.Conv2dTolerance`: its value is stated through `Tolerance.Conv2dReadsLayoutLetters` and `Tolerance.ConvProduct`, not in its own contract.
- `Tolerance.Table`: its contract states one direction of each classification; `Tolerance.TableClasses` proves the converse.
- The other files of the repository (validation tests of output shapes, one-line conformance registrations, the fledge and canvas tests) are not part of this model.
