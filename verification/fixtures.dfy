/** Test fixtures and the buffers made from them: the typed arrays fed to the graph
    (`getTypedArrayData`, webnn/resources/utils.js:28-55), the output buffers sized
    by `buildGraph` (utils.js:843-877) and the expected data compared against the
    outputs (`getExpectedDataAndType`, utils.js:97-116, and utils.js:567-574). */
module Fixtures {
  import opened Wrappers
  import opened Values
  import opened Shapes

  /** `kMaximumIndexToValidate` (utils.js:26): outputs are compared on at most this
      many leading elements. */
  const MaximumIndexToValidate: nat := 1000

  /** The `data` of a fixture record: a single number, broadcast where the shape has
      more than one element, or one number per element. */
  datatype Data = Single(number: JsNumber) | Many(numbers: seq<JsNumber>) {
    /** `typeof data === 'number'` picks the broadcast value, else element k. */
    function Source(k: nat): JsNumber
      requires Many? ==> k < |numbers|
    {
      if Single? then number else numbers[k]
    }
  }

  /** An input operand: its key in `resources.inputs`, type, shape, data, and whether
      the graph takes it as a constant rather than as a graph input. */
  datatype InputOperand = InputOperand(
    name: string, dataType: DataType, shape: seq<nat>, data: Data, constant: bool)

  /** One expected output. `shape` is absent for the scalar result of a 1-D by 1-D
      matmul. */
  datatype ExpectedRecord = ExpectedRecord(
    name: string, dataType: DataType, shape: Option<seq<nat>>, data: Data)

  /** `resources.expected`: one record, or a list of records for operators with
      several outputs (split, gru). */
  datatype Expected = One(record: ExpectedRecord) | Several(records: seq<ExpectedRecord>)

  /** The operator options the tolerance formulas read. A string option that is
      absent or empty is falsy in the source; `groups` of 0 is falsy as well. */
  datatype Options = Options(
    groups: Option<int>,
    inputLayout: Option<string>,
    filterLayout: Option<string>,
    aTranspose: bool,
    alpha: Option<real>,
    beta: Option<real>,
    /** whether a bias operand `c` is given (gemm) */
    hasC: bool,
    windowDimensions: Option<seq<nat>>,
    layout: Option<string>,
    axes: Option<seq<int>>,
    mode: Option<string>)

  /** A test case: inputs in key order, options, expected outputs. */
  datatype Resources = Resources(inputs: seq<InputOperand>, options: Options, expected: Expected)

  /** `count` copies of `x`. */
  function Repeat(x: JsNumber, count: nat): (xs: seq<JsNumber>)
    ensures |xs| == count && forall k | 0 <= k < count :: xs[k] == x
  {
    seq(count, _ => x)
  }

  /** `BigInt(x)` for each number in order, stopping at the first RangeError. */
  function ToBigInts(xs: seq<JsNumber>): (r: Result<seq<int>, Error>)
    ensures r.Ok? <==> forall k | 0 <= k < |xs| :: BigIntOf(xs[k]).Some?
    ensures r.Ok? ==> |r.value| == |xs| && forall k | 0 <= k < |xs| :: Some(r.value[k]) == BigIntOf(xs[k])
    ensures r.Err? ==> exists k | 0 <= k < |xs| :: r.error == NotAnInteger(xs[k]) && BigIntOf(xs[k]).None?
  {
    if |xs| == 0 then Ok([])
    else
      match BigIntOf(xs[0])
      case None => Err(NotAnInteger(xs[0]))
      case Some(i) =>
        var rest :- ToBigInts(xs[1..]);
        Ok([i] + rest)
  }

  /** The element the float16 path stores for number `x`: `toHalf(x)` reduced
      modulo 2^16 by the Uint16Array. */
  function Float16Element(x: JsNumber, env: Env): Scalar
  {
    Num(Finite(ToUint16(HalfOf(x, env)) as real))
  }

  /** The float16 branch (utils.js:30-38): a Uint16Array of the `toHalf` patterns of
      the data, or of the broadcast number; empty for a number over at most one
      element, because the length read is undefined. */
  function Float16Data(size: nat, data: Data, env: Env): (r: seq<Scalar>)
    ensures |r| == if data.Many? then |data.numbers| else if size > 1 then size else 0
    ensures forall k | 0 <= k < |r| :: r[k] == Float16Element(data.Source(k), env)
    ensures forall k | 0 <= k < |r| ::
      (r[k].Num? && r[k].number.Finite?
       && IsIntegral(r[k].number.value) && 0.0 <= r[k].number.value < 65536.0)
  {
    match data
    case Single(x) => if size > 1 then seq(size, _ => Float16Element(x, env)) else []
    case Many(xs) => seq(|xs|, k requires 0 <= k < |xs| => Float16Element(xs[k], env))
  }

  /** The int64 branch (utils.js:39-48): a BigInt64Array of `BigInt` of each datum,
      wrapped to 64 bits by the store; a datum that is not an integer throws. */
  function Int64Data(size: nat, data: Data): (r: Result<seq<Scalar>, Error>)
    ensures r.Ok? <==>
      ((data.Single? ==> size <= 1 || BigIntOf(data.number).Some?)
       && (data.Many? ==> forall k | 0 <= k < |data.numbers| :: BigIntOf(data.numbers[k]).Some?))
    ensures r.Ok? ==> |r.value| == if data.Many? then |data.numbers| else if size > 1 then size else 0
    ensures r.Ok? ==> forall k | 0 <= k < |r.value| :: r.value[k] == Big(AsInt64(BigIntOf(data.Source(k)).value))
    ensures r.Err? ==> r.error.NotAnInteger? && BigIntOf(r.error.number).None?
  {
    match data
    case Single(x) =>
      if size > 1 then
        (match BigIntOf(x)
         case None => Err(NotAnInteger(x))
         case Some(i) => Ok(seq(size, _ => Big(AsInt64(i)))))
      else Ok([])
    case Many(xs) =>
      var bigs :- ToBigInts(xs);
      Ok(seq(|bigs|, k requires 0 <= k < |bigs| => Big(AsInt64(bigs[k]))))
  }

  /** The other types (utils.js:49-54): the typed-array constructor of the type. An
      array (or a broadcast list) is converted element by element; a bare number is
      taken as a LENGTH, giving that many zeros or a RangeError. */
  function NarrowedData(dataType: DataType, size: nat, data: Data, env: Env): (r: Result<seq<Scalar>, Error>)
    ensures data.Many? || size > 1 ==>
      r.Ok? && |r.value| == (if data.Many? then |data.numbers| else size)
      && forall k | 0 <= k < |r.value| :: r.value[k] == Num(env.narrow(dataType, data.Source(k)))
    ensures data.Single? && size <= 1 ==>
      match ToIndex(data.number)
      case None => r == Err(InvalidLength(data.number))
      case Some(n) => r.Ok? && |r.value| == n && forall k | 0 <= k < n :: r.value[k] == Num(Finite(0.0))
  {
    match data
    case Single(x) =>
      if size > 1 then Ok(seq(size, _ => Num(env.narrow(dataType, x))))
      else
        (match ToIndex(x)
         case None => Err(InvalidLength(x))
         case Some(n) => Ok(seq(n, _ => Num(Finite(0.0)))))
    case Many(xs) =>
      Ok(seq(|xs|, k requires 0 <= k < |xs| => Num(env.narrow(dataType, xs[k]))))
  }

  /** `getTypedArrayData(type, size, data)` (utils.js:28-55), by branch on the type.
      Only the int64 branch and a bare length can throw. */
  function GetTypedArrayData(dataType: DataType, size: nat, data: Data, env: Env): (r: Result<seq<Scalar>, Error>)
    ensures r.Err? ==> dataType == Int64 || (data.Single? && size <= 1)
    ensures r.Ok? && data.Many? ==> |r.value| == |data.numbers|
    ensures r.Ok? && data.Single? && size > 1 ==> |r.value| == size
    ensures r.Ok? ==> WellTyped(dataType, r.value)
  {
    match dataType
    case Float16 => Ok(Float16Data(size, data, env))
    case Int64 => Int64Data(size, data)
    case _ => NarrowedData(dataType, size, data, env)
  }

  /** Broadcasting a number over a shape of more than one element gives the same
      buffer as converting the explicit list that repeats it. */
  lemma BroadcastIsElementwise(dataType: DataType, size: nat, x: JsNumber, env: Env)
    requires size > 1
    ensures GetTypedArrayData(dataType, size, Single(x), env)
         == GetTypedArrayData(dataType, size, Many(Repeat(x, size)), env)
  {
    var xs := Repeat(x, size);
    if dataType == Int64 {
      var a, b := Int64Data(size, Single(x)), Int64Data(size, Many(xs));
      assert a.Ok? <==> b.Ok?;
      if a.Ok? {
        assert |a.value| == |b.value| == size;
        assert forall k | 0 <= k < size :: a.value[k] == b.value[k];
        assert a.value == b.value;
      } else {
        assert a.error == NotAnInteger(x);
        assert b.error == NotAnInteger(x);
      }
      assert a == b;
    } else if dataType == Float16 {
      var a, b := Float16Data(size, Single(x), env), Float16Data(size, Many(xs), env);
      assert forall k | 0 <= k < size :: a[k] == b[k];
      assert a == b;
    } else {
      var a, b := NarrowedData(dataType, size, Single(x), env), NarrowedData(dataType, size, Many(xs), env);
      assert forall k | 0 <= k < size :: a.value[k] == b.value[k];
      assert a.value == b.value;
    }
  }

  /** A buffer as the ULP assertion expects it for the type: float16 buffers hold
      integers in [0, 2^16), int64 buffers hold BigInts, the others hold numbers. */
  predicate WellTyped(dataType: DataType, buffer: seq<Scalar>)
  {
    match dataType
    case Float16 =>
      forall k | 0 <= k < |buffer| ::
        buffer[k].Num? && buffer[k].number.Finite?
        && IsIntegral(buffer[k].number.value) && 0.0 <= buffer[k].number.value < 65536.0
    case Int64 =>
      forall k | 0 <= k < |buffer| :: buffer[k].Big?
    case _ =>
      forall k | 0 <= k < |buffer| :: buffer[k].Num?
  }

  /** The expected data of a record (utils.js:101-108, 567-574): a single number over a
      shape of more than one element becomes a list repeating it, capped at
      `MaximumIndexToValidate` entries; anything else is used as given. */
  function ExpectedDataOf(record: ExpectedRecord): (data: Data)
    ensures record.data.Single? && record.shape.Some? && SizeOfShape(record.shape.value) > 1 ==>
      data.Many?
      && |data.numbers| == (if SizeOfShape(record.shape.value) < MaximumIndexToValidate
                            then SizeOfShape(record.shape.value) else MaximumIndexToValidate)
      && forall k | 0 <= k < |data.numbers| :: data.numbers[k] == record.data.number
    ensures data.Single? ==> data == record.data
    ensures record.data.Many? ==> data == record.data
  {
    if record.data.Single? && record.shape.Some? && SizeOfShape(record.shape.value) > 1 then
      var size := SizeOfShape(record.shape.value);
      var count := if size < MaximumIndexToValidate then size else MaximumIndexToValidate;
      Many(Repeat(record.data.number, count))
    else
      record.data
  }

  /** `getExpectedDataAndType(records, name)` (utils.js:97-116): the expected data and
      type of the first record with that name, or an Error when there is none. */
  function GetExpectedDataAndType(records: seq<ExpectedRecord>, name: string): (r: Result<(Data, DataType), Error>)
    ensures r.Err? <==> forall k | 0 <= k < |records| :: records[k].name != name
    ensures r.Err? ==> r.error == NoExpectedData(name)
    ensures r.Ok? ==> exists k | 0 <= k < |records| ::
      && records[k].name == name
      && (forall j | 0 <= j < k :: records[j].name != name)
      && r.value == (ExpectedDataOf(records[k]), records[k].dataType)
  {
    if |records| == 0 then Err(NoExpectedData(name))
    else if records[0].name == name then Ok((ExpectedDataOf(records[0]), records[0].dataType))
    else
      var r := GetExpectedDataAndType(records[1..], name);
      if r.Ok? then
        ghost var k :| 0 <= k < |records[1..]| && records[1..][k].name == name
          && (forall j | 0 <= j < k :: records[1..][j].name != name)
          && r.value == (ExpectedDataOf(records[1..][k]), records[1..][k].dataType);
        assert records[k + 1] == records[1..][k];
        r
      else r
  }

  /** Output buffers of `buildGraph` (utils.js:864-875), as element counts by name.
      Each record of a list needs a shape (`sizeOfShape(undefined)` throws); a single
      record without a shape gets `[1]`. A later record with the same name replaces
      an earlier one (`SizedOutputsHoldLastSize`). */
  function OutputBuffers(expected: Expected): (r: Result<map<string, nat>, Error>)
    ensures expected.One? ==> r.Ok? && r.value == map[expected.record.name :=
      if expected.record.shape.Some? then SizeOfShape(expected.record.shape.value) else 1]
    ensures expected.Several? ==>
      (r.Ok? <==> forall k | 0 <= k < |expected.records| :: expected.records[k].shape.Some?)
    ensures expected.Several? && r.Ok? ==>
      r.value.Keys == set k | 0 <= k < |expected.records| :: expected.records[k].name
  {
    match expected
    case One(record) =>
      var shape := if record.shape.Some? then record.shape.value else [1];
      Ok(map[record.name := SizeOfShape(shape)])
    case Several(records) => SizedOutputs(records)
  }

  function SizedOutputs(records: seq<ExpectedRecord>): (r: Result<map<string, nat>, Error>)
    ensures r.Ok? <==> forall k | 0 <= k < |records| :: records[k].shape.Some?
    ensures r.Ok? ==> r.value.Keys == set k | 0 <= k < |records| :: records[k].name
    ensures r.Ok? && |records| > 0 ==>
      r.value[records[|records| - 1].name] == SizeOfShape(records[|records| - 1].shape.value)
    decreases |records|
  {
    if |records| == 0 then Ok(map[])
    else
      var last := records[|records| - 1];
      var prefix := records[..|records| - 1];
      var sized :- SizedOutputs(prefix);
      if last.shape.None? then Err(MissingShape(last.name))
      else
        assert forall k | 0 <= k < |prefix| :: prefix[k] == records[k];
        var r := sized[last.name := SizeOfShape(last.shape.value)];
        assert r.Keys == (set k | 0 <= k < |prefix| :: prefix[k].name) + {last.name};
        Ok(r)
  }

  /** Each record whose name no later record takes has a buffer sized by its own
      shape. */
  lemma {:induction false} SizedOutputsHoldLastSize(records: seq<ExpectedRecord>, k: nat)
    requires SizedOutputs(records).Ok?
    requires k < |records| && forall j | k < j < |records| :: records[j].name != records[k].name
    ensures records[k].shape.Some?
    ensures SizedOutputs(records).value[records[k].name] == SizeOfShape(records[k].shape.value)
    decreases |records|
  {
    var prefix := records[..|records| - 1];
    assert forall j | 0 <= j < |prefix| :: prefix[j] == records[j];
    if k < |records| - 1 {
      SizedOutputsHoldLastSize(prefix, k);
    }
  }

  /** The typed array `buildGraph` makes from an input operand (utils.js:851-852). */
  function InputData(input: InputOperand, env: Env): Result<seq<Scalar>, Error>
  {
    GetTypedArrayData(input.dataType, SizeOfShape(input.shape), input.data, env)
  }

  /** Input k is fed to the graph and no later fed input has its name. */
  predicate LastFed(inputs: seq<InputOperand>, k: nat)
    requires k < |inputs|
  {
    !inputs[k].constant
    && forall j | k < j < |inputs| :: inputs[j].constant || inputs[j].name != inputs[k].name
  }

  /** The graph inputs of `buildGraph` (utils.js:846-863): a typed array for every
      operand that is not a constant, in order, a later operand of the same name
      replacing an earlier one. The first conversion that throws ends it
      (`GraphInputsFirstFailure`); its keys are the fed names (`GraphInputsKeys`) and
      each name holds its last fed operand's array
      (`GraphInputsHoldLastFed`). */
  function GraphInputs(inputs: seq<InputOperand>, env: Env): (r: Result<map<string, seq<Scalar>>, Error>)
    ensures r.Ok? <==> forall k | 0 <= k < |inputs| && !inputs[k].constant :: InputData(inputs[k], env).Ok?
    decreases |inputs|
  {
    if |inputs| == 0 then Ok(map[])
    else
      var last := inputs[|inputs| - 1];
      var prefix := inputs[..|inputs| - 1];
      assert forall k | 0 <= k < |prefix| :: prefix[k] == inputs[k];
      var fed :- GraphInputs(prefix, env);
      if last.constant then Ok(fed)
      else
        var data :- InputData(last, env);
        Ok(fed[last.name := data])
  }

  /** The graph inputs are keyed by the names of exactly the fed operands. */
  lemma {:induction false} GraphInputsKeys(inputs: seq<InputOperand>, env: Env)
    requires GraphInputs(inputs, env).Ok?
    ensures GraphInputs(inputs, env).value.Keys == set k | 0 <= k < |inputs| && !inputs[k].constant :: inputs[k].name
    decreases |inputs|
  {
    if |inputs| > 0 {
      var prefix, last := inputs[..|inputs| - 1], inputs[|inputs| - 1];
      GraphInputsStep(inputs, env);
      GraphInputsKeys(prefix, env);
      assert forall k | 0 <= k < |prefix| :: prefix[k] == inputs[k];
      var before := set k | 0 <= k < |prefix| && !prefix[k].constant :: prefix[k].name;
      var after := set k | 0 <= k < |inputs| && !inputs[k].constant :: inputs[k].name;
      if last.constant {
        assert after == before;
      } else {
        assert after == before + {last.name};
      }
    }
  }

  /** Each name of the graph inputs holds the typed array of the last operand fed
      under it. */
  lemma {:induction false} GraphInputsHoldLastFed(inputs: seq<InputOperand>, env: Env, k: nat)
    requires GraphInputs(inputs, env).Ok?
    requires k < |inputs| && LastFed(inputs, k)
    ensures var fed := GraphInputs(inputs, env).value;
      inputs[k].name in fed && fed[inputs[k].name] == InputData(inputs[k], env).value
    decreases |inputs|
  {
    var n := |inputs|;
    var prefix, last := inputs[..n - 1], inputs[n - 1];
    var name := inputs[k].name;
    GraphInputsStep(inputs, env);
    var fed := GraphInputs(prefix, env).value;
    if k < n - 1 {
      assert last.constant || last.name != name;
      LastFedInPrefix(inputs, k);
      GraphInputsHoldLastFed(prefix, env, k);
      assert name in fed;
    }
  }

  /** An input fed last before the final operand is fed last in the prefix too. */
  lemma LastFedInPrefix(inputs: seq<InputOperand>, k: nat)
    requires k < |inputs| - 1 && LastFed(inputs, k)
    ensures inputs[..|inputs| - 1][k] == inputs[k] && LastFed(inputs[..|inputs| - 1], k)
  {
    var prefix := inputs[..|inputs| - 1];
    assert forall j | k < j < |prefix| :: prefix[j] == inputs[j];
  }

  /** The last operand updates the inputs built from the ones before it. */
  lemma GraphInputsStep(inputs: seq<InputOperand>, env: Env)
    requires |inputs| > 0 && GraphInputs(inputs, env).Ok?
    ensures var prefix := inputs[..|inputs| - 1];
      var last := inputs[|inputs| - 1];
      && GraphInputs(prefix, env).Ok?
      && GraphInputs(inputs, env).value
         == if last.constant then GraphInputs(prefix, env).value
            else GraphInputs(prefix, env).value[last.name := InputData(last, env).value]
  {
  }

  /** When building the graph inputs throws, it is with the error of the first fed
      operand whose conversion throws. */
  lemma {:induction false} GraphInputsFirstFailure(inputs: seq<InputOperand>, env: Env)
    requires GraphInputs(inputs, env).Err?
    ensures exists k | 0 <= k < |inputs| ::
      && !inputs[k].constant
      && InputData(inputs[k], env).Err?
      && GraphInputs(inputs, env).error == InputData(inputs[k], env).error
      && forall j | 0 <= j < k && !inputs[j].constant :: InputData(inputs[j], env).Ok?
    decreases |inputs|
  {
    var n := |inputs|;
    var prefix := inputs[..n - 1];
    assert forall j | 0 <= j < |prefix| :: prefix[j] == inputs[j];
    if GraphInputs(prefix, env).Err? {
      GraphInputsFirstFailure(prefix, env);
      var k :| 0 <= k < |prefix| && !prefix[k].constant && InputData(prefix[k], env).Err?
        && GraphInputs(prefix, env).error == InputData(prefix[k], env).error
        && forall j | 0 <= j < k && !prefix[j].constant :: InputData(prefix[j], env).Ok?;
      assert !inputs[k].constant && InputData(inputs[k], env).Err?;
    } else {
      assert !inputs[n - 1].constant && InputData(inputs[n - 1], env).Err?;
    }
  }
}
