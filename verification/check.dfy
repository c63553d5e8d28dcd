/** `checkResults` (webnn/resources/utils.js:543-579): every output the graph
    computed is cut to its first `MaximumIndexToValidate` elements and compared with
    its expected data under the operator's metric and tolerance. */
module Check {
  import opened Wrappers
  import opened Values
  import opened Shapes
  import opened Fixtures
  import opened Tolerance
  import opened Ulp

  /** `outputData.subarray(0, kMaximumIndexToValidate)` when the output is longer. */
  function Truncated(buffer: seq<Scalar>): (r: seq<Scalar>)
    ensures |r| == if |buffer| < MaximumIndexToValidate then |buffer| else MaximumIndexToValidate
    ensures r <= buffer
  {
    if |buffer| > MaximumIndexToValidate then buffer[..MaximumIndexToValidate] else buffer
  }

  /** Each output buffer was made for the type of an expected record of its name
      (utils.js:864-876), so float outputs hold numbers. */
  predicate OutputsTyped(outputs: map<string, seq<Scalar>>, expected: Expected)
  {
    match expected
    case One(record) => record.name in outputs ==> Numeric(outputs[record.name], record.dataType)
    case Several(records) =>
      forall k | 0 <= k < |records| :: records[k].name in outputs ==> Numeric(outputs[records[k].name], records[k].dataType)
  }

  /** The tolerance, then the assertion on the truncated output. */
  function CompareOutput(operationName: string, metric: Metric, buffer: seq<Scalar>, data: Data, dataType: DataType, resources: Resources, env: Env): (r: Result<(), Error>)
    requires Numeric(buffer, dataType)
    ensures GetPrecisionTolerance(operationName, metric, resources).Err? ==>
      r == Err(GetPrecisionTolerance(operationName, metric, resources).error)
    ensures GetPrecisionTolerance(operationName, metric, resources).Ok? ==>
      r == DoAssert(metric, Truncated(buffer), data, GetPrecisionTolerance(operationName, metric, resources).value, dataType, env)
  {
    var tolerance :- GetPrecisionTolerance(operationName, metric, resources);
    var actual := Truncated(buffer);
    assert forall k | 0 <= k < |actual| :: actual[k] == buffer[k];
    DoAssert(metric, actual, data, tolerance, dataType, env)
  }

  /** Under the ULP metric, once the tolerance is found, a list of expected numbers
      passes exactly when it is as long as the capped output and each of the
      output's first elements passes against the number at its index; a single
      expected number is compared once with the whole capped output. */
  lemma CompareOutputVerdict(operationName: string, buffer: seq<Scalar>, data: Data, dataType: DataType, resources: Resources, env: Env)
    requires Numeric(buffer, dataType)
    requires GetPrecisionTolerance(operationName, ULP, resources).Ok?
    ensures var nulp := GetPrecisionTolerance(operationName, ULP, resources).value;
      var r := CompareOutput(operationName, ULP, buffer, data, dataType, resources, env);
      && (data.Many? ==>
            (r.Ok? <==>
               && |data.numbers| == (if |buffer| < MaximumIndexToValidate then |buffer| else MaximumIndexToValidate)
               && forall k | 0 <= k < |data.numbers| :: ItemCheck(Value(buffer[k]), data.numbers[k], k, nulp, dataType, env).Ok?))
      && (data.Single? ==> r == ItemCheck(Whole(Truncated(buffer)), data.number, 0, nulp, dataType, env))
  {
    var nulp := GetPrecisionTolerance(operationName, ULP, resources).value;
    var actual := Truncated(buffer);
    assert forall k | 0 <= k < |actual| :: actual[k] == buffer[k];
    DoAssertUlpVerdict(actual, data, nulp, dataType, env);
  }

  /** The comparison of one output reads only its first `MaximumIndexToValidate`
      elements: two outputs that agree on those get the same verdict. */
  lemma CompareOutputReadsCappedPrefix(operationName: string, metric: Metric, buffer: seq<Scalar>, other: seq<Scalar>,
                                       data: Data, dataType: DataType, resources: Resources, env: Env)
    requires Numeric(buffer, dataType) && Numeric(other, dataType)
    requires Truncated(buffer) == Truncated(other)
    ensures CompareOutput(operationName, metric, buffer, data, dataType, resources, env)
         == CompareOutput(operationName, metric, other, data, dataType, resources, env)
  {
  }

  /** One named output of an operator with several outputs (utils.js:551-561): a
      missing output throws, then its expected data and type are looked up by name. */
  function OutputCheck(operationName: string, metric: Metric, name: string, outputs: map<string, seq<Scalar>>, records: seq<ExpectedRecord>, resources: Resources, env: Env): (r: Result<(), Error>)
    requires OutputsTyped(outputs, Several(records))
    ensures name !in outputs ==> r == Err(MissingOutput(name))
    ensures name in outputs && GetExpectedDataAndType(records, name).Err? ==> r == Err(NoExpectedData(name))
  {
    if name !in outputs then Err(MissingOutput(name))
    else
      var expected :- GetExpectedDataAndType(records, name);
      CompareOutput(operationName, metric, outputs[name], expected.0, expected.1, resources, env)
  }

  /** The loop over the graph's named outputs: the first failing check ends it. The
      checks are pure, so the loop's verdict is that of the first failing entry of
      the list of every output's check. */
  function FirstFailure(results: seq<Result<(), Error>>): (r: Result<(), Error>)
    ensures r.Ok? <==> forall k | 0 <= k < |results| :: results[k].Ok?
    ensures r.Err? ==> exists k | 0 <= k < |results| ::
      results[k] == r && forall j | 0 <= j < k :: results[j].Ok?
  {
    if |results| == 0 then Ok(())
    else if results[0].Err? then results[0]
    else
      var rest := FirstFailure(results[1..]);
      assert forall k | 1 <= k < |results| :: results[k] == results[1..][k - 1];
      rest
  }

  /** The check of every named output, in order. */
  function OutputChecks(operationName: string, metric: Metric, names: seq<string>, outputs: map<string, seq<Scalar>>, records: seq<ExpectedRecord>, resources: Resources, env: Env): (results: seq<Result<(), Error>>)
    requires OutputsTyped(outputs, Several(records))
    ensures |results| == |names|
    ensures forall k | 0 <= k < |names| :: results[k] == OutputCheck(operationName, metric, names[k], outputs, records, resources, env)
  {
    seq(|names|, k requires 0 <= k < |names| => OutputCheck(operationName, metric, names[k], outputs, records, resources, env))
  }

  /** `checkResults(operationName, namedOutputOperands, outputs, resources)`: the
      metric is the one the operator's table entry lists; an unknown operator throws.
      With one expected record its output is compared with the record's data, a
      single number over more than one element broadcast to a capped list; with a
      list of records, every output the graph names is compared in order. */
  function CheckResults(operationName: string, outputNames: seq<string>, outputs: map<string, seq<Scalar>>, resources: Resources, env: Env): (r: Result<(), Error>)
    requires OutputsTyped(outputs, resources.expected)
    ensures OperationNamed(operationName).None? ==> r == Err(UnknownOperation(operationName))
    ensures OperationNamed(operationName).Some? && resources.expected.One? ==>
      var record := resources.expected.record;
      && (record.name !in outputs ==> r == Err(MissingOutput(record.name)))
      && (record.name in outputs ==>
            r == CompareOutput(operationName, PrecisionMetrics(OperationNamed(operationName).value).metric,
                               outputs[record.name], ExpectedDataOf(record), record.dataType, resources, env))
    ensures OperationNamed(operationName).Some? && resources.expected.Several? ==>
      var metric := PrecisionMetrics(OperationNamed(operationName).value).metric;
      && (r.Ok? <==> forall k | 0 <= k < |outputNames| ::
            OutputCheck(operationName, metric, outputNames[k], outputs, resources.expected.records, resources, env).Ok?)
      && (r.Err? ==> exists k | 0 <= k < |outputNames| ::
            && OutputCheck(operationName, metric, outputNames[k], outputs, resources.expected.records, resources, env) == r
            && forall j | 0 <= j < k ::
                 OutputCheck(operationName, metric, outputNames[j], outputs, resources.expected.records, resources, env).Ok?)
  {
    if OperationNamed(operationName).None? then Err(UnknownOperation(operationName))
    else
      var metric := PrecisionMetrics(OperationNamed(operationName).value).metric;
      match resources.expected
      case Several(records) => FirstFailure(OutputChecks(operationName, metric, outputNames, outputs, records, resources, env))
      case One(record) =>
        if record.name !in outputs then Err(MissingOutput(record.name))
        else CompareOutput(operationName, metric, outputs[record.name], ExpectedDataOf(record), record.dataType, resources, env)
  }

  /** The metric `checkResults` passes is the one the table lists, so the tolerance
      lookup never fails for want of it. */
  lemma MetricIsListed(operationName: string, resources: Resources)
    requires OperationNamed(operationName).Some?
    ensures var metric := PrecisionMetrics(OperationNamed(operationName).value).metric;
      GetPrecisionTolerance(operationName, metric, resources).Err? ==>
        !GetPrecisionTolerance(operationName, metric, resources).error.MetricNotListed?
  {
    var op := OperationNamed(operationName).value;
    var r := GetPrecisionTolerance(operationName, PrecisionMetrics(op).metric, resources);
    if PrecisionType(resources.expected).Ok? {
      var spec := PrecisionMetrics(op).For(PrecisionType(resources.expected).value);
      if spec.Some? && spec.value.Dynamic? {
        assert r == Evaluate(spec.value.formula, resources, op);
      }
    }
  }

  /** Elements of an output past the first `MaximumIndexToValidate` never change the
      verdict. */
  lemma ElementsPastTheCapIgnored(operationName: string, outputNames: seq<string>, outputs: map<string, seq<Scalar>>,
                                  name: string, buffer: seq<Scalar>, tail: seq<Scalar>, resources: Resources, env: Env)
    requires |buffer| >= MaximumIndexToValidate
    requires OutputsTyped(outputs[name := buffer + tail], resources.expected)
    requires OutputsTyped(outputs[name := buffer], resources.expected)
    ensures CheckResults(operationName, outputNames, outputs[name := buffer + tail], resources, env)
         == CheckResults(operationName, outputNames, outputs[name := buffer], resources, env)
  {
    assert Truncated(buffer + tail) == Truncated(buffer);
    var long, short := outputs[name := buffer + tail], outputs[name := buffer];
    if OperationNamed(operationName).Some? && resources.expected.Several? {
      var metric := PrecisionMetrics(OperationNamed(operationName).value).metric;
      var records := resources.expected.records;
      forall k | 0 <= k < |outputNames|
        ensures OutputCheck(operationName, metric, outputNames[k], long, records, resources, env)
             == OutputCheck(operationName, metric, outputNames[k], short, records, resources, env)
      {
      }
      assert OutputChecks(operationName, metric, outputNames, long, records, resources, env)
          == OutputChecks(operationName, metric, outputNames, short, records, resources, env);
    }
  }

  /** The cap applies to the output only: an expected list written out with more than
      `MaximumIndexToValidate` numbers fails the ULP comparison on length. */
  lemma LongExpectedListFails(operationName: string, outputNames: seq<string>, outputs: map<string, seq<Scalar>>, resources: Resources, env: Env)
    requires OutputsTyped(outputs, resources.expected)
    requires OperationNamed(operationName).Some?
    requires PrecisionMetrics(OperationNamed(operationName).value).metric == ULP
    requires resources.expected.One? && resources.expected.record.name in outputs
    requires resources.expected.record.data.Many?
    requires |resources.expected.record.data.numbers| > MaximumIndexToValidate
    requires GetPrecisionTolerance(operationName, ULP, resources).Ok?
    ensures var record := resources.expected.record;
      CheckResults(operationName, outputNames, outputs, resources, env)
      == Err(LengthsDiffer(|record.data.numbers|, |Truncated(outputs[record.name])|))
  {
  }

  /** A single expected number over more than `MaximumIndexToValidate` elements is
      compared with each of the output's first `MaximumIndexToValidate` elements. */
  lemma BroadcastComparesCappedPrefix(operationName: string, outputNames: seq<string>, outputs: map<string, seq<Scalar>>, resources: Resources, env: Env)
    requires OutputsTyped(outputs, resources.expected)
    requires OperationNamed(operationName).Some?
    requires PrecisionMetrics(OperationNamed(operationName).value).metric == ULP
    requires resources.expected.One?
    requires var record := resources.expected.record;
      && record.name in outputs
      && |outputs[record.name]| >= MaximumIndexToValidate
      && record.data.Single? && record.shape.Some?
      && SizeOfShape(record.shape.value) > MaximumIndexToValidate
    requires GetPrecisionTolerance(operationName, ULP, resources).Ok?
    ensures var record := resources.expected.record;
      var buffer := outputs[record.name];
      var nulp := GetPrecisionTolerance(operationName, ULP, resources).value;
      CheckResults(operationName, outputNames, outputs, resources, env).Ok?
      <==> forall k | 0 <= k < MaximumIndexToValidate ::
             ItemCheck(Value(buffer[k]), record.data.number, k, nulp, record.dataType, env).Ok?
  {
    var record := resources.expected.record;
    var buffer := outputs[record.name];
    var nulp := GetPrecisionTolerance(operationName, ULP, resources).value;
    var expected := ExpectedDataOf(record).numbers;
    var actual := Elements(Truncated(buffer));
    assert |expected| == MaximumIndexToValidate;
    forall k | 0 <= k < MaximumIndexToValidate
      ensures ElementResult(actual, expected, k, nulp, record.dataType, env)
           == ItemCheck(Value(buffer[k]), record.data.number, k, nulp, record.dataType, env)
    {
      assert actual.buffer[k] == buffer[k];
    }
  }
}
