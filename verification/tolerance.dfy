/** Precision tolerances (webnn/resources/utils.js:118-444): the per-operator table of
    metrics and tolerances, and the formulas that compute a tolerance from the
    shapes and options of a test case.

    A tolerance is an `Option<real>`: `None` stands for the JavaScript value
    `undefined` (a missing table entry) and for the NaN produced by arithmetic on
    `undefined` (a shape read out of range). Arithmetic propagates `None`. */
module Tolerance {
  import opened Wrappers
  import opened Values
  import opened Shapes
  import opened Fixtures

  /** The dynamic tolerance functions of the table. */
  datatype Formula = ByConv2d | ByGemm | ByMatmul | ByPool2d | BySoftmax | ByReduction | ByResample2d

  /** A table entry for one data type: a number, or a function of the test case. */
  datatype Spec = Fixed(tolerance: real) | Dynamic(formula: Formula)

  /** The entry of one operator: its only metric, and the tolerance for each data
      type it lists. */
  datatype Entry = Entry(
    metric: Metric,
    float32: Option<Spec>, float16: Option<Spec>, int32: Option<Spec>, uint32: Option<Spec>,
    int64: Option<Spec>, int8: Option<Spec>, uint8: Option<Spec>)
  {
    /** `PrecisionMetrics[operationName][metricType][dataType]` */
    function For(dataType: DataType): Option<Spec>
    {
      match dataType
      case Float32 => float32
      case Float16 => float16
      case Int32 => int32
      case Uint32 => uint32
      case Int64 => int64
      case Int8 => int8
      case Uint8 => uint8
    }
  }

  // ---------------------------------------------------------------------------
  // Numbers that may be undefined

  /** `dims[i]`: undefined outside the array, negative indices included. */
  function At(dims: seq<nat>, i: int): (r: Option<real>)
    ensures r.Some? <==> 0 <= i < |dims|
    ensures r.Some? ==> r.value == dims[i] as real
  {
    if 0 <= i < |dims| then Some(dims[i] as real) else None
  }

  function Times(a: Option<real>, b: Option<real>): (r: Option<real>)
    ensures r.Some? <==> a.Some? && b.Some?
    ensures r.Some? ==> r.value == a.value * b.value
  {
    if a.Some? && b.Some? then Some(a.value * b.value) else None
  }

  function Plus(a: Option<real>, c: real): (r: Option<real>)
    ensures r.Some? <==> a.Some?
    ensures r.Some? ==> r.value == a.value + c
  {
    if a.Some? then Some(a.value + c) else None
  }

  /** A string option counts only when present and non-empty. */
  predicate Truthy(s: Option<string>) { s.Some? && s.value != "" }

  /** The shape of the input with the given position in `resources.inputs`; reading
      `.shape` of a missing input throws. */
  function InputShape(inputs: seq<InputOperand>, index: nat): (r: Result<seq<nat>, Error>)
    ensures r.Ok? <==> index < |inputs|
    ensures r.Ok? ==> r.value == inputs[index].shape
    ensures r.Err? ==> r.error == MissingInput(index)
  {
    if index < |inputs| then Ok(inputs[index].shape) else Err(MissingInput(index))
  }

  // ---------------------------------------------------------------------------
  // conv2d and convTranspose2d (utils.js:124-175)

  /** The input-channel dimension: axis 1 by default and for "nchw", axis 3 for
      "nhwc"; any other non-empty layout throws. */
  function InputChannels(inputShape: seq<nat>, inputLayout: Option<string>): (r: Result<Option<real>, Error>)
    ensures r.Err? <==> Truthy(inputLayout) && inputLayout.value != "nchw" && inputLayout.value != "nhwc"
    ensures r.Err? ==> r.error == UnsupportedInputLayout(inputLayout.value)
    ensures r.Ok? ==> r.value == At(inputShape, if inputLayout == Some("nhwc") then 3 else 1)
  {
    if !Truthy(inputLayout) then Ok(At(inputShape, 1))
    else if inputLayout.value == "nchw" then Ok(At(inputShape, 1))
    else if inputLayout.value == "nhwc" then Ok(At(inputShape, 3))
    else Err(UnsupportedInputLayout(inputLayout.value))
  }

  /** The filter layouts a convolution knows, by the order of their axes: output
      channels, input channels, height, width. */
  datatype FilterLayout = Oihw | Hwio | Ohwi | Ihwo | Iohw | Hwoi {
    /** The layout's name in the operator's options. */
    function Name(): string
    {
      match this
      case Oihw => "oihw"
      case Hwio => "hwio"
      case Ohwi => "ohwi"
      case Ihwo => "ihwo"
      case Iohw => "iohw"
      case Hwoi => "hwoi"
    }

    /** Whether `op` lists the layout: convTranspose2d accepts "iohw", "hwoi" and
        "ohwi", conv2d accepts "oihw", "hwio", "ohwi" and "ihwo". */
    predicate AcceptedBy(op: Operation)
    {
      if op == ConvTranspose2d then this == Iohw || this == Hwoi || this == Ohwi
      else this == Oihw || this == Hwio || this == Ohwi || this == Ihwo
    }

    /** The positions of the width and the height: 1 and 0 when the layout starts
        with the spatial axes, 2 and 1 when they follow one channel axis, 3 and 2
        otherwise. */
    function Axes(): (axes: (nat, nat))
      ensures axes.0 == axes.1 + 1 < 4
    {
      match this
      case Hwio | Hwoi => (1, 0)
      case Ohwi | Ihwo => (2, 1)
      case _ => (3, 2)
    }
  }

  /** The layout a name denotes, if any. */
  function FilterLayoutNamed(name: string): (r: Option<FilterLayout>)
    ensures r.Some? ==> r.value.Name() == name
    ensures forall l: FilterLayout :: l.Name() == name ==> r == Some(l)
  {
    match name
    case "oihw" => Some(Oihw)
    case "hwio" => Some(Hwio)
    case "ohwi" => Some(Ohwi)
    case "ihwo" => Some(Ihwo)
    case "iohw" => Some(Iohw)
    case "hwoi" => Some(Hwoi)
    case _ => None
  }

  /** Whether `layout` is in the operator's list of filter layouts. */
  predicate FilterLayoutSupported(op: Operation, layout: string)
  {
    FilterLayoutNamed(layout).Some? && FilterLayoutNamed(layout).value.AcceptedBy(op)
  }

  /** The filter layout a convolution reads: "oihw" by default for conv2d and
      "iohw" for convTranspose2d; a given layout the operator does not list throws. */
  function FilterLayoutOf(op: Operation, filterLayout: Option<string>): (r: Result<FilterLayout, Error>)
    ensures r.Err? <==> Truthy(filterLayout) && !FilterLayoutSupported(op, filterLayout.value)
    ensures r.Err? ==> r.error == UnsupportedFilterLayout(filterLayout.value)
    ensures r.Ok? ==> r.value.AcceptedBy(op)
    ensures r.Ok? && Truthy(filterLayout) ==> r.value.Name() == filterLayout.value
  {
    if !Truthy(filterLayout) then Ok(if op == ConvTranspose2d then Iohw else Oihw)
    else if !FilterLayoutSupported(op, filterLayout.value) then
      Err(UnsupportedFilterLayout(filterLayout.value))
    else Ok(FilterLayoutNamed(filterLayout.value).value)
  }

  /** The positions of the filter's width and height under the layout it reads. */
  function FilterSpatialAxes(op: Operation, filterLayout: Option<string>): (r: Result<(nat, nat), Error>)
    ensures r.Err? <==> Truthy(filterLayout) && !FilterLayoutSupported(op, filterLayout.value)
    ensures r.Err? ==> r.error == UnsupportedFilterLayout(filterLayout.value)
    ensures r.Ok? ==> r.value.0 == r.value.1 + 1
  {
    var layout :- FilterLayoutOf(op, filterLayout);
    Ok(layout.Axes())
  }

  /** `options.groups`, or 1 when it is absent or 0. */
  function Groups(options: Options): (g: real)
    ensures g != 0.0
  {
    if options.groups.Some? && options.groups.value != 0 then options.groups.value as real else 1.0
  }

  /** Filter width times filter height times input channels per group, times 2. */
  function Conv2dTolerance(resources: Resources, op: Operation): (r: Result<Option<real>, Error>)
    ensures |resources.inputs| < 2 ==> r.Err? && r.error.MissingInput?
    ensures |resources.inputs| >= 2 ==>
      (r.Err? <==> InputChannels(resources.inputs[0].shape, resources.options.inputLayout).Err?
                   || FilterSpatialAxes(op, resources.options.filterLayout).Err?)
    ensures |resources.inputs| >= 2 && InputChannels(resources.inputs[0].shape, resources.options.inputLayout).Err? ==>
      r == Err(UnsupportedInputLayout(resources.options.inputLayout.value))
    ensures r.Err? ==> r.error.MissingInput? || r.error.UnsupportedInputLayout? || r.error.UnsupportedFilterLayout?
  {
    var inputShape :- InputShape(resources.inputs, 0);
    var filterShape :- InputShape(resources.inputs, 1);
    var channels :- InputChannels(inputShape, resources.options.inputLayout);
    var axes :- FilterSpatialAxes(op, resources.options.filterLayout);
    Ok(ConvProduct(At(filterShape, axes.0), At(filterShape, axes.1), channels, Groups(resources.options)))
  }

  /** `filterWidth * filterHeight * (inputChannels / groups) * 2`, evaluated left to
      right. */
  function ConvProduct(w: Option<real>, h: Option<real>, c: Option<real>, groups: real): (r: Option<real>)
    requires groups != 0.0
    ensures r.Some? <==> w.Some? && h.Some? && c.Some?
    ensures r.Some? ==> r.value == w.value * h.value * (c.value / groups) * 2.0
  {
    var perGroup := if c.Some? then Some(c.value / groups) else None;
    var area := Times(w, h);
    var scaled := Times(area, perGroup);
    assert scaled.Some? ==> scaled.value == w.value * h.value * (c.value / groups);
    Times(scaled, Some(2.0))
  }

  /** The input layout a convolution reads, the default being "nchw". */
  function InputLayoutName(options: Options): string
  {
    if Truthy(options.inputLayout) then options.inputLayout.value else "nchw"
  }

  /** The filter layout a convolution reads: "oihw" by default for conv2d and
      "iohw" for convTranspose2d. */
  function FilterLayoutName(options: Options, op: Operation): string
  {
    if Truthy(options.filterLayout) then options.filterLayout.value
    else if op == ConvTranspose2d then "iohw" else "oihw"
  }

  /** Reference reading of the convolution tolerance: each dimension is read at the
      position of its letter in the layout's name. */
  function ConvFormula(resources: Resources, op: Operation): (t: Option<real>)
    requires |resources.inputs| >= 2
  {
    var filter := resources.inputs[1].shape;
    var filterLayout := FilterLayoutName(resources.options, op);
    var c := At(resources.inputs[0].shape, IndexOf(InputLayoutName(resources.options), 'c'));
    var h := At(filter, IndexOf(filterLayout, 'h'));
    var w := At(filter, IndexOf(filterLayout, 'w'));
    ConvProduct(w, h, c, Groups(resources.options))
  }

  /** The input channels are read at the position of 'c' in the input layout. */
  lemma ChannelsAtLetter(inputShape: seq<nat>, options: Options)
    requires InputChannels(inputShape, options.inputLayout).Ok?
    ensures InputChannels(inputShape, options.inputLayout).value
         == At(inputShape, IndexOf(InputLayoutName(options), 'c'))
  {
    var l := InputLayoutName(options);
    assert l == "nchw" || l == "nhwc";
    assert "nchw"[1] == 'c' && "nhwc"[3] == 'c';
  }

  /** The filter width and height are read at the positions of 'w' and 'h' in the
      filter layout. */
  lemma FilterAxesAtLetters(op: Operation, options: Options)
    requires FilterSpatialAxes(op, options.filterLayout).Ok?
    ensures var l := FilterLayoutName(options, op);
      FilterSpatialAxes(op, options.filterLayout).value == (IndexOf(l, 'w'), IndexOf(l, 'h'))
  {
    var layout := FilterLayoutOf(op, options.filterLayout).value;
    assert FilterLayoutName(options, op) == layout.Name();
    AxesAtLetters(layout);
  }

  /** Each layout's axes are where its name has 'w' and 'h'. */
  lemma AxesAtLetters(layout: FilterLayout)
    ensures layout.Axes() == (IndexOf(layout.Name(), 'w'), IndexOf(layout.Name(), 'h'))
  {
    var l := layout.Name();
    var (w, h) := layout.Axes();
    LettersAt(l, h, w);
  }

  /** In a four-letter layout name with 'h' at `i` and 'w' at `j`, nowhere else. */
  lemma LettersAt(l: string, i: nat, j: nat)
    requires |l| == 4 && i < j < 4 && l[i] == 'h' && l[j] == 'w'
    requires forall k | 0 <= k < 4 && k != i :: l[k] != 'h'
    requires forall k | 0 <= k < 4 && k != j :: l[k] != 'w'
    ensures IndexOf(l, 'h') == i && IndexOf(l, 'w') == j
  {
  }

  /** Whatever the supported layouts, the tolerance is the filter's `w` times its `h`
      times the input's `c` per group, times 2, each dimension read under its letter
      in the layout's name. */
  lemma Conv2dReadsLayoutLetters(resources: Resources, op: Operation)
    requires |resources.inputs| >= 2
    requires Conv2dTolerance(resources, op).Ok?
    ensures Conv2dTolerance(resources, op) == Ok(ConvFormula(resources, op))
  {
    var o := resources.options;
    var filterLayout := FilterLayoutName(o, op);
    var c := At(resources.inputs[0].shape, IndexOf(InputLayoutName(o), 'c'));
    var h := At(resources.inputs[1].shape, IndexOf(filterLayout, 'h'));
    var w := At(resources.inputs[1].shape, IndexOf(filterLayout, 'w'));
    Conv2dAtLetters(resources, op, c, h, w);
  }

  lemma Conv2dAtLetters(resources: Resources, op: Operation, c: Option<real>, h: Option<real>, w: Option<real>)
    requires |resources.inputs| >= 2
    requires Conv2dTolerance(resources, op).Ok?
    requires c == At(resources.inputs[0].shape, IndexOf(InputLayoutName(resources.options), 'c'))
    requires h == At(resources.inputs[1].shape, IndexOf(FilterLayoutName(resources.options, op), 'h'))
    requires w == At(resources.inputs[1].shape, IndexOf(FilterLayoutName(resources.options, op), 'w'))
    ensures Conv2dTolerance(resources, op) == Ok(ConvProduct(w, h, c, Groups(resources.options)))
  {
    ChannelsAtLetter(resources.inputs[0].shape, resources.options);
    FilterAxesAtLetters(op, resources.options);
  }

  // ---------------------------------------------------------------------------
  // gemm (utils.js:183-205)

  /** Two operations per element of the reduced dimension of A, plus one for a
      non-default alpha, one for adding a bias C that beta does not zero, and one
      more for a non-default beta. */
  function GemmTolerance(resources: Resources): (r: Result<Option<real>, Error>)
    ensures r.Err? <==> |resources.inputs| == 0
    ensures r.Err? ==> r.error == MissingInput(0)
    ensures r.Ok? ==> (r.value.Some? <==> At(resources.inputs[0].shape, if resources.options.aTranspose then 0 else 1).Some?)
  {
    var shapeA :- InputShape(resources.inputs, 0);
    var options := resources.options;
    var width := At(shapeA, if options.aTranspose then 0 else 1);
    var t0 := Times(width, Some(2.0));
    var t1 := if options.alpha.Some? && options.alpha.value != 1.0 then Plus(t0, 1.0) else t0;
    var t2 := if options.hasC && options.beta != Some(0.0) then
                var withBeta := if options.beta.Some? && options.beta.value != 1.0 then Plus(t1, 1.0) else t1;
                Plus(withBeta, 1.0)
              else t1;
    Ok(t2)
  }

  /** Default alpha: absent or 1. */
  predicate DefaultAlpha(o: Options) { o.alpha.None? || o.alpha.value == 1.0 }

  /** A bias that changes the result: given and not scaled by zero. */
  predicate BiasApplied(o: Options) { o.hasC && o.beta != Some(0.0) }

  /** Default beta: absent or 1. */
  predicate DefaultBeta(o: Options) { o.beta.None? || o.beta.value == 1.0 }

  /** The gemm tolerance is 2 * width plus one for each of: a non-default alpha, an
      applied bias, an applied bias with a non-default beta. So it lies between
      2 * width and 2 * width + 3, and is exactly 2 * width when alpha is the default
      and no bias is applied. */
  lemma GemmToleranceBounds(resources: Resources)
    requires |resources.inputs| > 0
    requires At(resources.inputs[0].shape, if resources.options.aTranspose then 0 else 1).Some?
    ensures var o := resources.options;
            var width := At(resources.inputs[0].shape, if o.aTranspose then 0 else 1).value;
            GemmTolerance(resources).value.value
            == 2.0 * width + (if DefaultAlpha(o) then 0.0 else 1.0) + (if BiasApplied(o) then 1.0 else 0.0)
               + (if BiasApplied(o) && !DefaultBeta(o) then 1.0 else 0.0)
    ensures var width := At(resources.inputs[0].shape, if resources.options.aTranspose then 0 else 1).value;
            var t := GemmTolerance(resources).value.value;
            && 2.0 * width <= t <= 2.0 * width + 3.0
            && (t == 2.0 * width <==> DefaultAlpha(resources.options) && !BiasApplied(resources.options))
  {
  }

  /** A bias scaled by a zero beta costs nothing: the tolerance is that of the same
      gemm without the bias. */
  lemma GemmZeroBetaIgnoresBias(resources: Resources)
    requires resources.options.beta == Some(0.0)
    ensures GemmTolerance(resources)
         == GemmTolerance(resources.(options := resources.options.(hasC := false)))
  {
  }

  // ---------------------------------------------------------------------------
  // matmul, pooling, softmax (utils.js:213-263)

  /** Twice the last dimension of A; undefined for a rank-0 A. */
  function MatmulTolerance(resources: Resources): (r: Result<Option<real>, Error>)
    ensures r.Err? <==> |resources.inputs| == 0
    ensures r.Err? ==> r.error == MissingInput(0)
    ensures r.Ok? ==> var shapeA := resources.inputs[0].shape;
      (|shapeA| == 0 ==> r.value.None?)
      && (|shapeA| > 0 ==> r.value == Some(2.0 * shapeA[|shapeA| - 1] as real))
  {
    var shapeA :- InputShape(resources.inputs, 0);
    Ok(Times(At(shapeA, |shapeA| - 1), Some(2.0)))
  }

  /** The window's area plus 2. The window is `windowDimensions` when given, else the
      spatial dimensions of the input: axes 1 and 2 for "nhwc", 2 and 3 otherwise. */
  function Pool2dTolerance(resources: Resources): (r: Result<Option<real>, Error>)
    ensures r.Err? <==> |resources.inputs| == 0
    ensures r.Err? ==> r.error == MissingInput(0)
    ensures r.Ok? && resources.options.windowDimensions.Some? ==>
      (r.value.Some? <==> |resources.options.windowDimensions.value| >= 2)
  {
    var inputShape :- InputShape(resources.inputs, 0);
    var options := resources.options;
    var area := if options.windowDimensions.Some? then Area(options.windowDimensions.value, 0, 1)
                else if options.layout == Some("nhwc") then Area(inputShape, 1, 2)
                else Area(inputShape, 2, 3);
    Ok(Plus(area, 2.0))
  }

  /** `dims[i] * dims[j]`, undefined where either index is out of range. */
  function Area(dims: seq<nat>, i: nat, j: nat): (r: Option<real>)
    ensures r.Some? <==> i < |dims| && j < |dims|
    ensures r.Some? ==> r.value == dims[i] as real * dims[j] as real
  {
    Times(At(dims, i), At(dims, j))
  }

  /** With a window of at least two dimensions, the pooling tolerance is their
      product plus 2. */
  lemma Pool2dWindowTolerance(resources: Resources)
    requires |resources.inputs| > 0
    requires resources.options.windowDimensions.Some? && |resources.options.windowDimensions.value| >= 2
    ensures var r, window := Pool2dTolerance(resources), resources.options.windowDimensions.value;
      r.Ok? && r.value.Some? && r.value.value == window[0] as real * window[1] as real + 2.0
  {
    var window := resources.options.windowDimensions.value;
    var area := Area(window, 0, 1);
    assert area.Some? && area.value == window[0] as real * window[1] as real;
    assert Pool2dTolerance(resources) == Ok(Plus(area, 2.0));
  }

  /** Without a window, the pooling tolerance is the input's height times width plus
      2 in either layout: the same tensor laid out as "nchw" or as "nhwc" gets the
      same tolerance. */
  lemma Pool2dLayoutsAgree(resources: Resources, n: nat, c: nat, h: nat, w: nat)
    requires |resources.inputs| > 0 && resources.options.windowDimensions.None?
    requires resources.options.layout == Some("nhwc") ==> resources.inputs[0].shape == [n, h, w, c]
    requires resources.options.layout != Some("nhwc") ==> resources.inputs[0].shape == [n, c, h, w]
    ensures var r := Pool2dTolerance(resources);
      r.Ok? && r.value.Some? && r.value.value == h as real * w as real + 2.0
  {
    var shape := resources.inputs[0].shape;
    var area := if resources.options.layout == Some("nhwc") then Area(shape, 1, 2) else Area(shape, 2, 3);
    assert area.Some? && area.value == h as real * w as real;
    assert Pool2dTolerance(resources) == Ok(Plus(area, 2.0));
  }

  /** Three times the size of axis 1, plus 3. */
  function SoftmaxTolerance(resources: Resources): (r: Result<Option<real>, Error>)
    ensures r.Err? <==> |resources.inputs| == 0
    ensures r.Err? ==> r.error == MissingInput(0)
    ensures r.Ok? ==> var shape := resources.inputs[0].shape;
      r.value == (if |shape| >= 2 then Some(shape[1] as real * 3.0 + 3.0) else None)
  {
    var inputShape :- InputShape(resources.inputs, 0);
    var scaled := Times(At(inputShape, 1), Some(3.0));
    assert |inputShape| >= 2 ==> scaled == Some(inputShape[1] as real * 3.0);
    Ok(Plus(scaled, 3.0))
  }

  // ---------------------------------------------------------------------------
  // reductions (utils.js:271-312)

  /** `inputShape[axis]`, a negative axis counting from the end once; undefined
      outside the shape. */
  function AxisSize(shape: seq<nat>, axis: int): (r: Option<nat>)
    ensures var i := if axis < 0 then axis + |shape| else axis;
      && (r.Some? <==> 0 <= i < |shape|)
      && (r.Some? ==> r.value == shape[i])
  {
    var i := if axis < 0 then axis + |shape| else axis;
    if 0 <= i < |shape| then Some(shape[i]) else None
  }

  /** Each dimension as a defined size. */
  function Lift(shape: seq<nat>): (r: seq<Option<nat>>)
    ensures |r| == |shape| && forall k | 0 <= k < |shape| :: r[k] == Some(shape[k])
  {
    seq(|shape|, k requires 0 <= k < |shape| => Some(shape[k]))
  }

  /** The sizes of the reduced axes: all dimensions when `axes` is absent. */
  function ReducedSizes(shape: seq<nat>, axes: Option<seq<int>>): (r: seq<Option<nat>>)
    ensures axes.None? ==> r == Lift(shape)
    ensures axes.Some? ==> |r| == |axes.value| && forall k | 0 <= k < |r| :: r[k] == AxisSize(shape, axes.value[k])
  {
    if axes.Some? then seq(|axes.value|, k requires 0 <= k < |axes.value| => AxisSize(shape, axes.value[k]))
    else Lift(shape)
  }

  /** `sizes.reduce((a, c) => a * c)` of a non-empty list: a left fold that starts
      from the first element; undefined as soon as one size is. */
  function Product(sizes: seq<Option<nat>>): (r: Option<nat>)
    requires |sizes| > 0
    ensures r.Some? <==> forall k | 0 <= k < |sizes| :: sizes[k].Some?
    decreases |sizes|
  {
    if |sizes| == 1 then sizes[0]
    else
      var folded := Product(sizes[..|sizes| - 1]);
      var last := sizes[|sizes| - 1];
      if folded.Some? && last.Some? then Some(folded.value * last.value) else None
  }

  /** A size as a number. */
  function Number(n: Option<nat>): (r: Option<real>)
    ensures r.Some? <==> n.Some?
    ensures r.Some? ==> r.value == n.value as real
  {
    if n.Some? then Some(n.value as real) else None
  }

  /** The fold without an initial value agrees with the element count of the shape,
      which folds from 1. */
  lemma {:induction false} ProductIsSizeOfShape(shape: seq<nat>)
    requires |shape| > 0
    ensures ProductMatches(shape)
    decreases |shape|
  {
    if |shape| == 1 {
      SizeOfShapeStep(shape);
    } else {
      ProductIsSizeOfShape(shape[..|shape| - 1]);
      ProductStep(shape);
    }
  }

  /** The fold over the lifted shape is defined and equals the element count. */
  predicate ProductMatches(shape: seq<nat>)
    requires |shape| > 0
  {
    var r := Product(Lift(shape)); r.Some? && r.value == SizeOfShape(shape)
  }

  /** The fold and the element count stay equal when a dimension is added. */
  lemma ProductStep(shape: seq<nat>)
    requires |shape| > 1 && ProductMatches(shape[..|shape| - 1])
    ensures ProductMatches(shape)
  {
    LiftedProductStep(shape);
    SizeOfShapeStep(shape);
  }

  /** The fold over the lifted shape takes its last dimension last. */
  lemma LiftedProductStep(shape: seq<nat>)
    requires |shape| > 1
    ensures var folded := Product(Lift(shape[..|shape| - 1]));
      folded.Some? ==> Product(Lift(shape)).Some? && Product(Lift(shape)).value == folded.value * shape[|shape| - 1]
  {
    assert Lift(shape)[..|shape| - 1] == Lift(shape[..|shape| - 1]);
  }

  /** The element count takes the last dimension last. */
  lemma SizeOfShapeStep(shape: seq<nat>)
    requires |shape| > 0
    ensures SizeOfShape(shape) == SizeOfShape(shape[..|shape| - 1]) * shape[|shape| - 1]
  {
  }

  /** The reduction tolerance of each operator as a function of the number of
      reduced elements; undefined for operators the switch does not list. */
  function ReductionFromCount(op: Operation, count: Option<real>): (r: Option<real>)
    ensures IsReduction(op) ==> (r.Some? <==> count.Some?)
    ensures !IsReduction(op) ==> r.None?
  {
    match op
    case ReduceL1 => count
    case ReduceProduct => count
    case ReduceSum => count
    case ReduceL2 => Plus(Times(count, Some(2.0)), 1.0)
    case ReduceMean => Plus(count, 2.0)
    case ReduceLogSum => Plus(count, 18.0)
    case ReduceLogSumExp => Plus(Times(count, Some(2.0)), 18.0)
    case ReduceSumSquare => Times(count, Some(2.0))
    case _ => None
  }

  /** The eight reduction operators the formula knows. */
  predicate IsReduction(op: Operation)
  {
    op.ReduceL1? || op.ReduceL2? || op.ReduceLogSum? || op.ReduceLogSumExp? || op.ReduceMean?
    || op.ReduceProduct? || op.ReduceSum? || op.ReduceSumSquare?
  }

  /** The product of the sizes of the reduced axes, scaled per operator. Reducing an
      empty list (no axes given as `[]`, or a rank-0 input without axes) throws. */
  function ReductionTolerance(resources: Resources, op: Operation): (r: Result<Option<real>, Error>)
    ensures |resources.inputs| == 0 ==> r == Err(MissingInput(0))
    ensures |resources.inputs| > 0 ==>
      var sizes := ReducedSizes(resources.inputs[0].shape, resources.options.axes);
      (r.Err? <==> |sizes| == 0)
      && (r.Err? ==> r.error == ReduceOfEmptyArray)
      && (r.Ok? ==> r.value == ReductionFromCount(op, Number(Product(sizes))))
  {
    var inputShape :- InputShape(resources.inputs, 0);
    var sizes := ReducedSizes(inputShape, resources.options.axes);
    if |sizes| == 0 then Err(ReduceOfEmptyArray)
    else Ok(ReductionFromCount(op, Number(Product(sizes))))
  }

  /** The axes with every negative axis counted from the end. */
  function NormalizedAxes(axes: seq<int>, rank: nat): (r: seq<int>)
    ensures |r| == |axes|
    ensures forall k | 0 <= k < |axes| :: r[k] == if axes[k] < 0 then axes[k] + rank else axes[k]
  {
    seq(|axes|, k requires 0 <= k < |axes| => if axes[k] < 0 then axes[k] + rank else axes[k])
  }

  /** The dimensions the axes select. */
  function Selected(shape: seq<nat>, axes: seq<int>): (r: seq<nat>)
    requires forall k | 0 <= k < |axes| :: 0 <= axes[k] < |shape|
    ensures |r| == |axes| && forall k | 0 <= k < |axes| :: r[k] == shape[axes[k]]
  {
    seq(|axes|, k requires 0 <= k < |axes| => shape[axes[k]])
  }

  /** With axes in range, the reduced element count is the element count of the
      selected dimensions, and a negative axis selects the same dimension as its
      non-negative counterpart. */
  lemma ReducedCountOfAxes(shape: seq<nat>, axes: seq<int>)
    requires |axes| > 0
    requires forall k | 0 <= k < |axes| :: -|shape| <= axes[k] < |shape|
    ensures ReducedSizes(shape, Some(axes)) == ReducedSizes(shape, Some(NormalizedAxes(axes, |shape|)))
    ensures var r := Product(ReducedSizes(shape, Some(axes)));
      r.Some? && r.value == SizeOfShape(Selected(shape, NormalizedAxes(axes, |shape|)))
  {
    var normal := NormalizedAxes(axes, |shape|);
    var selected := Selected(shape, normal);
    assert ReducedSizes(shape, Some(axes)) == Lift(selected);
    assert ReducedSizes(shape, Some(normal)) == Lift(selected);
    ProductIsSizeOfShape(selected);
  }

  /** The reduction tolerances in terms of the reduced element count `n` (the element
      count of the input without axes, of the selected dimensions with axes in range):
      n for L1, product and sum, 2n + 1 for L2, n + 2 for mean, n + 18 for log-sum,
      2n + 18 for log-sum-exp, 2n for sum of squares. */
  lemma ReductionToleranceValues(resources: Resources, op: Operation, n: nat)
    requires IsReduction(op) && |resources.inputs| > 0
    requires var shape, axes := resources.inputs[0].shape, resources.options.axes;
      || (axes.None? && |shape| > 0 && n == SizeOfShape(shape))
      || (&& axes.Some? && |axes.value| > 0
          && (forall k | 0 <= k < |axes.value| :: -|shape| <= axes.value[k] < |shape|)
          && n == SizeOfShape(Selected(shape, NormalizedAxes(axes.value, |shape|))))
    ensures var r := ReductionTolerance(resources, op); r.Ok? && r.value.Some?
    ensures var t, count := ReductionTolerance(resources, op).value.value, n as real;
      && (op.ReduceL1? || op.ReduceProduct? || op.ReduceSum? ==> t == count)
      && (op.ReduceL2? ==> t == 2.0 * count + 1.0)
      && (op.ReduceMean? ==> t == count + 2.0)
      && (op.ReduceLogSum? ==> t == count + 18.0)
      && (op.ReduceLogSumExp? ==> t == 2.0 * count + 18.0)
      && (op.ReduceSumSquare? ==> t == 2.0 * count)
  {
    var shape, axes := resources.inputs[0].shape, resources.options.axes;
    if axes.None? {
      ProductIsSizeOfShape(shape);
    } else {
      ReducedCountOfAxes(shape, axes.value);
    }
  }

  /** Without axes the whole input is reduced, the same as listing every axis. */
  lemma ReductionOverAllAxes(shape: seq<nat>)
    ensures ReducedSizes(shape, None) == ReducedSizes(shape, Some(seq(|shape|, k => k)))
  {
  }

  // ---------------------------------------------------------------------------
  // resample2d (utils.js:320-338)

  /** Linear interpolation: 84 for float32, 10 for float16, 1 otherwise, the type read
      from `resources.expected.type` (undefined when the expected value is a list);
      nearest-neighbour: 0. */
  function Resample2dTolerance(resources: Resources): (t: real)
    ensures resources.options.mode != Some("linear") ==> t == 0.0
    ensures resources.options.mode == Some("linear") && resources.expected.One? ==>
      t == match resources.expected.record.dataType
           case Float32 => 84.0
           case Float16 => 10.0
           case _ => 1.0
    ensures resources.options.mode == Some("linear") && resources.expected.Several? ==> t == 1.0
  {
    if resources.options.mode == Some("linear") then
      var precisionType := if resources.expected.One? then Some(resources.expected.record.dataType) else None;
      if precisionType == Some(Float32) then 84.0
      else if precisionType == Some(Float16) then 10.0
      else 1.0
    else 0.0
  }

  // ---------------------------------------------------------------------------
  // the table (utils.js:341-426)

  /** The shapes the table's entries take. */
  datatype Row =
    | Floats(float32: real, float16: real)
    | Absolute(float32: real, float16: real)
    | Computed(formula: Formula)
      /** cast and constant: also exact for every integer type */
    | AllTypes(float32: real, float16: real)
      /** argMax and argMin */
    | ExactInt64
      /** the comparison and logical operators */
    | ExactUint8
  {
    /** The entry object the row is written as. */
    function AsEntry(): Entry
    {
      var exact := Some(Fixed(0.0));
      match this
      case Floats(f32, f16) => Entry(ULP, Some(Fixed(f32)), Some(Fixed(f16)), None, None, None, None, None)
      case Absolute(f32, f16) => Entry(ATOL, Some(Fixed(f32)), Some(Fixed(f16)), None, None, None, None, None)
      case Computed(f) => Entry(ULP, Some(Dynamic(f)), Some(Dynamic(f)), None, None, None, None, None)
      case AllTypes(f32, f16) => Entry(ULP, Some(Fixed(f32)), Some(Fixed(f16)), exact, exact, exact, exact, exact)
      case ExactInt64 => Entry(ULP, None, None, None, None, exact, None, None)
      case ExactUint8 => Entry(ULP, None, None, None, None, None, None, exact)
    }

    /** The numbers written in the row are non-negative. */
    predicate NonNegative()
    {
      (Floats? || Absolute? || AllTypes?) ==> float32 >= 0.0 && float16 >= 0.0
    }
  }

  /** 1/1024 (0.0009765625) or 1/512 (0.001953125), the two absolute tolerances
      the table uses. */
  predicate AbsoluteValue(x: real) { x == 0.0009765625 || x == 0.001953125 }

  /** The operators the table lists. */
  datatype Operation =
      ArgMax | ArgMin | BatchNormalization | Cast | Clamp | Concat | Constant | Conv2d
    | ConvTranspose2d | Add | Sub | Mul | Div | Max | Min | Pow | Equal | Greater
    | GreaterOrEqual | Lesser | LesserOrEqual | LogicalNot | Abs | Ceil | Cos | Erf | Exp
    | Floor | Identity | Log | Neg | Reciprocal | Sin | Sqrt | Tan | Elu | Expand | Gather
    | Gemm | InstanceNormalization | HardSigmoid | HardSwish | LayerNormalization
    | LeakyRelu | Linear | Matmul | Pad | AveragePool2d | L2Pool2d | MaxPool2d | Prelu
    | ReduceL1 | ReduceL2 | ReduceLogSum | ReduceLogSumExp | ReduceMax | ReduceMean
    | ReduceMin | ReduceProduct | ReduceSum | ReduceSumSquare | Relu | Resample2d | Reshape
    | Sigmoid | Slice | Softmax | Softplus | Softsign | Split | Tanh | Transpose
    | Triangular | Where

  /** The operator a name denotes in the table, if any (`PrecisionMetrics[name]` is
      undefined otherwise). */
  function OperationNamed(operationName: string): Option<Operation>
  {
    match operationName
    case "argMax" => Some(ArgMax)
    case "argMin" => Some(ArgMin)
    case "batchNormalization" => Some(BatchNormalization)
    case "cast" => Some(Cast)
    case "clamp" => Some(Clamp)
    case "concat" => Some(Concat)
    case "constant" => Some(Constant)
    case "conv2d" => Some(Conv2d)
    case "convTranspose2d" => Some(ConvTranspose2d)
    case "add" => Some(Add)
    case "sub" => Some(Sub)
    case "mul" => Some(Mul)
    case "div" => Some(Div)
    case "max" => Some(Max)
    case "min" => Some(Min)
    case "pow" => Some(Pow)
    case "equal" => Some(Equal)
    case "greater" => Some(Greater)
    case "greaterOrEqual" => Some(GreaterOrEqual)
    case "lesser" => Some(Lesser)
    case "lesserOrEqual" => Some(LesserOrEqual)
    case "logicalNot" => Some(LogicalNot)
    case "abs" => Some(Abs)
    case "ceil" => Some(Ceil)
    case "cos" => Some(Cos)
    case "erf" => Some(Erf)
    case "exp" => Some(Exp)
    case "floor" => Some(Floor)
    case "identity" => Some(Identity)
    case "log" => Some(Log)
    case "neg" => Some(Neg)
    case "reciprocal" => Some(Reciprocal)
    case "sin" => Some(Sin)
    case "sqrt" => Some(Sqrt)
    case "tan" => Some(Tan)
    case "elu" => Some(Elu)
    case "expand" => Some(Expand)
    case "gather" => Some(Gather)
    case "gemm" => Some(Gemm)
    case "instanceNormalization" => Some(InstanceNormalization)
    case "hardSigmoid" => Some(HardSigmoid)
    case "hardSwish" => Some(HardSwish)
    case "layerNormalization" => Some(LayerNormalization)
    case "leakyRelu" => Some(LeakyRelu)
    case "linear" => Some(Linear)
    case "matmul" => Some(Matmul)
    case "pad" => Some(Pad)
    case "averagePool2d" => Some(AveragePool2d)
    case "l2Pool2d" => Some(L2Pool2d)
    case "maxPool2d" => Some(MaxPool2d)
    case "prelu" => Some(Prelu)
    case "reduceL1" => Some(ReduceL1)
    case "reduceL2" => Some(ReduceL2)
    case "reduceLogSum" => Some(ReduceLogSum)
    case "reduceLogSumExp" => Some(ReduceLogSumExp)
    case "reduceMax" => Some(ReduceMax)
    case "reduceMean" => Some(ReduceMean)
    case "reduceMin" => Some(ReduceMin)
    case "reduceProduct" => Some(ReduceProduct)
    case "reduceSum" => Some(ReduceSum)
    case "reduceSumSquare" => Some(ReduceSumSquare)
    case "relu" => Some(Relu)
    case "resample2d" => Some(Resample2d)
    case "reshape" => Some(Reshape)
    case "sigmoid" => Some(Sigmoid)
    case "slice" => Some(Slice)
    case "softmax" => Some(Softmax)
    case "softplus" => Some(Softplus)
    case "softsign" => Some(Softsign)
    case "split" => Some(Split)
    case "tanh" => Some(Tanh)
    case "transpose" => Some(Transpose)
    case "triangular" => Some(Triangular)
    case "where" => Some(Where)
    case _ => None
  }

  predicate NonNegativeIfFixed(s: Option<Spec>) { s.Some? && s.value.Fixed? ==> s.value.tolerance >= 0.0 }

  predicate ExactIfListed(s: Option<Spec>) { s.Some? ==> s.value == Fixed(0.0) }

  /** Every fixed tolerance is non-negative and integer types are compared exactly. */
  predicate Sound(e: Entry)
  {
    && NonNegativeIfFixed(e.float32) && NonNegativeIfFixed(e.float16)
    && ExactIfListed(e.int32) && ExactIfListed(e.uint32) && ExactIfListed(e.int64)
    && ExactIfListed(e.int8) && ExactIfListed(e.uint8)
  }

  /** Both float types are computed by the same formula, and nothing else is listed. */
  predicate IsComputed(e: Entry)
  {
    e.float32.Some? && e.float32.value.Dynamic? && e == Computed(e.float32.value.formula).AsEntry()
  }

  predicate FixedIfListed(s: Option<Spec>) { s.Some? ==> s.value.Fixed? }

  /** Every listed tolerance is a number. */
  predicate AllFixed(e: Entry)
  {
    && FixedIfListed(e.float32) && FixedIfListed(e.float16) && FixedIfListed(e.int32)
    && FixedIfListed(e.uint32) && FixedIfListed(e.int64) && FixedIfListed(e.int8) && FixedIfListed(e.uint8)
  }

  /** The absolute tolerances: 1/1024 or 1/512 for both float types, nothing else. */
  predicate AbsoluteEntry(e: Entry)
  {
    && e.float32.Some? && e.float32.value.Fixed? && AbsoluteValue(e.float32.value.tolerance)
    && e.float16.Some? && e.float16.value.Fixed? && AbsoluteValue(e.float16.value.tolerance)
    && e.int32.None? && e.uint32.None? && e.int64.None? && e.int8.None? && e.uint8.None?
  }

  /** The operators measured by absolute tolerance. */
  predicate IsAbsolute(op: Operation)
  {
    op.Cos? || op.Erf? || op.Log? || op.Sin? || op.Tan? || op.LayerNormalization? || op.Tanh?
  }

  /** The operators other than reductions whose tolerance is computed from the test
      case. */
  predicate IsFormulaOperation(op: Operation)
  {
    op.Conv2d? || op.ConvTranspose2d? || op.Gemm? || op.Matmul? || op.AveragePool2d?
    || op.L2Pool2d? || op.Resample2d? || op.Softmax?
  }

  /** The operators whose tolerance is computed from the test case. */
  predicate IsComputedOperation(op: Operation)
  {
    IsFormulaOperation(op) || IsReduction(op)
  }

  /** The table's classes of operators agree with the lists: absolute tolerances for
      exactly the seven of `IsAbsolute`, each 1/1024 or 1/512, computed ones for
      exactly the sixteen of `IsComputedOperation`, the reduction formula for exactly
      the eight reductions. */
  lemma TableClasses(op: Operation)
    ensures Table(op).Absolute? <==> IsAbsolute(op)
    ensures Table(op).Absolute? ==> AbsoluteValue(Table(op).float32) && AbsoluteValue(Table(op).float16)
    ensures Table(op).Computed? <==> IsComputedOperation(op)
    ensures Table(op).Computed? && Table(op).formula == ByReduction <==> IsReduction(op)
  {
    if IsAbsolute(op) {
      AbsoluteOperatorsListed(op);
    }
    if IsReduction(op) {
      ReductionsListed(op);
    } else if IsFormulaOperation(op) {
      FormulaOperatorsListed(op);
    }
  }

  lemma AbsoluteOperatorsListed(op: Operation)
    requires IsAbsolute(op)
    ensures Table(op).Absolute?
  {
  }

  lemma ReductionsListed(op: Operation)
    requires IsReduction(op)
    ensures Table(op).Computed? && Table(op).formula == ByReduction
  {
  }

  lemma FormulaOperatorsListed(op: Operation)
    requires IsFormulaOperation(op)
    ensures Table(op).Computed?
  {
  }

  /** Every entry of the table is sound. */
  lemma PrecisionMetricsSound(op: Operation)
    ensures Sound(PrecisionMetrics(op))
  {
    RowSound(Table(op));
  }

  lemma RowSound(row: Row)
    requires row.NonNegative()
    ensures Sound(row.AsEntry())
  {
  }

  /** Exactly seven operators are measured by absolute tolerance, each with 1/1024
      or 1/512 for both float types. */
  lemma PrecisionMetricsAbsolute(op: Operation)
    ensures PrecisionMetrics(op).metric == ATOL <==> IsAbsolute(op)
    ensures PrecisionMetrics(op).metric == ATOL ==> AbsoluteEntry(PrecisionMetrics(op))
  {
    TableClasses(op);
    RowAbsolute(Table(op));
  }

  lemma RowAbsolute(row: Row)
    ensures row.AsEntry().metric == ATOL <==> row.Absolute?
    ensures row.Absolute? && AbsoluteValue(row.float32) && AbsoluteValue(row.float16) ==> AbsoluteEntry(row.AsEntry())
  {
  }

  /** Exactly sixteen operators compute their tolerance from the test case; the
      entries of the others are numbers. */
  lemma PrecisionMetricsComputed(op: Operation)
    ensures IsComputed(PrecisionMetrics(op)) <==> IsComputedOperation(op)
    ensures !IsComputed(PrecisionMetrics(op)) ==> AllFixed(PrecisionMetrics(op))
  {
    TableClasses(op);
    RowComputed(Table(op));
  }

  lemma RowComputed(row: Row)
    ensures IsComputed(row.AsEntry()) <==> row.Computed?
    ensures !row.Computed? ==> AllFixed(row.AsEntry())
  {
  }

  /** The table entry of an operator (utils.js:341-426). */
  function PrecisionMetrics(op: Operation): Entry
  {
    Table(op).AsEntry()
  }

  /** The rows of the table. Its numbers are non-negative; exactly the seven
      operators of `IsAbsolute` use absolute tolerances, each 1/1024 or 1/512;
      exactly the sixteen of `IsComputedOperation` compute theirs, the eight
      reductions by the reduction formula. */
  function Table(op: Operation): (row: Row)
    ensures row.NonNegative()
    ensures row.Absolute? ==> IsAbsolute(op) && AbsoluteValue(row.float32) && AbsoluteValue(row.float16)
    ensures row.Computed? ==> IsComputedOperation(op)
    ensures row.Computed? && row.formula == ByReduction ==> IsReduction(op)
  {
    match op
    case ArgMax => ExactInt64
    case ArgMin => ExactInt64
    case BatchNormalization => Floats(6.0, 6.0)
    case Cast => AllTypes(1.0, 1.0)
    case Clamp => Floats(0.0, 0.0)
    case Concat => Floats(0.0, 0.0)
    case Constant => AllTypes(2.0, 2.0)
    case Conv2d => Computed(ByConv2d)
    case ConvTranspose2d => Computed(ByConv2d)
    case Add => Floats(1.0, 1.0)
    case Sub => Floats(1.0, 1.0)
    case Mul => Floats(1.0, 1.0)
    case Div => Floats(2.0, 2.0)
    case Max => Floats(0.0, 0.0)
    case Min => Floats(0.0, 0.0)
    case Pow => Floats(32.0, 2.0)
    case Equal => ExactUint8
    case Greater => ExactUint8
    case GreaterOrEqual => ExactUint8
    case Lesser => ExactUint8
    case LesserOrEqual => ExactUint8
    case LogicalNot => ExactUint8
    case Abs => Floats(0.0, 0.0)
    case Ceil => Floats(0.0, 0.0)
    case Cos => Absolute(0.0009765625, 0.001953125)
    case Erf => Absolute(0.0009765625, 0.001953125)
    case Exp => Floats(32.0, 1.0)
    case Floor => Floats(0.0, 0.0)
    case Identity => Floats(0.0, 0.0)
    case Log => Absolute(0.0009765625, 0.0009765625)
    case Neg => Floats(0.0, 0.0)
    case Reciprocal => Floats(2.0, 2.0)
    case Sin => Absolute(0.0009765625, 0.001953125)
    case Sqrt => Floats(1.0, 1.0)
    case Tan => Absolute(0.0009765625, 0.001953125)
    case Elu => Floats(18.0, 18.0)
    case Expand => Floats(0.0, 0.0)
    case Gather => Floats(0.0, 0.0)
    case Gemm => Computed(ByGemm)
    case InstanceNormalization => Floats(840.0, 8400.0)
    case HardSigmoid => Floats(2.0, 2.0)
    case HardSwish => Floats(4.0, 4.0)
    case LayerNormalization => Absolute(0.0009765625, 0.001953125)
    case LeakyRelu => Floats(1.0, 1.0)
    case Linear => Floats(2.0, 2.0)
    case Matmul => Computed(ByMatmul)
    case Pad => Floats(0.0, 0.0)
    case AveragePool2d => Computed(ByPool2d)
    case L2Pool2d => Computed(ByPool2d)
    case MaxPool2d => Floats(0.0, 0.0)
    case Prelu => Floats(1.0, 1.0)
    case ReduceL1 => Computed(ByReduction)
    case ReduceL2 => Computed(ByReduction)
    case ReduceLogSum => Computed(ByReduction)
    case ReduceLogSumExp => Computed(ByReduction)
    case ReduceMax => Floats(0.0, 0.0)
    case ReduceMean => Computed(ByReduction)
    case ReduceMin => Floats(0.0, 0.0)
    case ReduceProduct => Computed(ByReduction)
    case ReduceSum => Computed(ByReduction)
    case ReduceSumSquare => Computed(ByReduction)
    case Relu => Floats(0.0, 0.0)
    case Resample2d => Computed(ByResample2d)
    case Reshape => Floats(0.0, 0.0)
    case Sigmoid => Floats(34.0, 3.0)
    case Slice => Floats(0.0, 0.0)
    case Softmax => Computed(BySoftmax)
    case Softplus => Floats(18.0, 18.0)
    case Softsign => Floats(3.0, 3.0)
    case Split => Floats(0.0, 0.0)
    case Tanh => Absolute(0.0009765625, 0.001953125)
    case Transpose => Floats(0.0, 0.0)
    case Triangular => Floats(0.0, 0.0)
    case Where => Floats(0.0, 0.0)
  }

  // ---------------------------------------------------------------------------
  // getPrecisonTolerance (utils.js:435-444)

  /** The data type the tolerance is looked up for: that of the first record of a
      list. Reading `.type` of the first element of an empty list throws. */
  function PrecisionType(expected: Expected): (r: Result<DataType, Error>)
    ensures expected.One? ==> r == Ok(expected.record.dataType)
    ensures expected.Several? && |expected.records| > 0 ==> r == Ok(expected.records[0].dataType)
    ensures expected.Several? && |expected.records| == 0 ==> r == Err(EmptyExpectedList)
  {
    match expected
    case One(record) => Ok(record.dataType)
    case Several(records) => if |records| == 0 then Err(EmptyExpectedList) else Ok(records[0].dataType)
  }

  /** The tolerance a formula computes; it throws only for a missing input, a layout
      it does not know, or an empty reduction. */
  function Evaluate(formula: Formula, resources: Resources, op: Operation): (r: Result<Option<real>, Error>)
    ensures r.Err? ==> r.error.MissingInput? || r.error.UnsupportedInputLayout?
                       || r.error.UnsupportedFilterLayout? || r.error == ReduceOfEmptyArray
  {
    match formula
    case ByConv2d => Conv2dTolerance(resources, op)
    case ByGemm => GemmTolerance(resources)
    case ByMatmul => MatmulTolerance(resources)
    case ByPool2d => Pool2dTolerance(resources)
    case BySoftmax => SoftmaxTolerance(resources)
    case ByReduction => ReductionTolerance(resources, op)
    case ByResample2d => Ok(Some(Resample2dTolerance(resources)))
  }

  /** `getPrecisonTolerance(operationName, metricType, resources)`: the table entry for
      the operator, metric and precision type, evaluated when it is a function. An
      unknown operator or a metric the operator does not list throws (a property
      read on undefined); a data type the entry does not list gives undefined. */
  function GetPrecisionTolerance(operationName: string, metric: Metric, resources: Resources): (r: Result<Option<real>, Error>)
    ensures PrecisionType(resources.expected).Err? ==> r == Err(EmptyExpectedList)
    ensures PrecisionType(resources.expected).Ok? && OperationNamed(operationName).None? ==>
      r == Err(UnknownOperation(operationName))
    ensures (PrecisionType(resources.expected).Ok? && OperationNamed(operationName).Some?
             && PrecisionMetrics(OperationNamed(operationName).value).metric != metric) ==>
      r == Err(MetricNotListed(operationName, metric))
    ensures r.Ok? ==>
      OperationNamed(operationName).Some? && PrecisionMetrics(OperationNamed(operationName).value).metric == metric
    ensures r.Ok? ==>
      var spec := PrecisionMetrics(OperationNamed(operationName).value).For(PrecisionType(resources.expected).value);
      && (spec.None? ==> r.value.None?)
      && (spec.Some? && spec.value.Fixed? ==> r.value == Some(spec.value.tolerance))
      && (spec.Some? && spec.value.Dynamic? ==>
            r == Evaluate(spec.value.formula, resources, OperationNamed(operationName).value))
  {
    var precisionType :- PrecisionType(resources.expected);
    var op :- if OperationNamed(operationName).Some? then Ok(OperationNamed(operationName).value)
              else Err(UnknownOperation(operationName));
    var entry := PrecisionMetrics(op);
    if entry.metric != metric then Err(MetricNotListed(operationName, metric))
    else
      match entry.For(precisionType)
      case None => Ok(None)
      case Some(Fixed(t)) => Ok(Some(t))
      case Some(Dynamic(formula)) => Evaluate(formula, resources, op)
  }

  /** A reduction operator of the table never reaches the switch's default: its
      tolerance is defined whenever the sizes of the reduced axes are. */
  lemma TabledReductionsAreDefined(op: Operation, resources: Resources)
    requires PrecisionMetrics(op) == Computed(ByReduction).AsEntry()
    requires |resources.inputs| > 0
    requires var sizes := ReducedSizes(resources.inputs[0].shape, resources.options.axes);
      |sizes| > 0 && forall k | 0 <= k < |sizes| :: sizes[k].Some?
    ensures ReductionTolerance(resources, op).Ok?
    ensures ReductionTolerance(resources, op).value.Some?
  {
    PrecisionMetricsReductions(op);
  }

  /** The table sends exactly the eight reductions to the reduction formula. */
  lemma PrecisionMetricsReductions(op: Operation)
    ensures PrecisionMetrics(op) == Computed(ByReduction).AsEntry() <==> IsReduction(op)
  {
    TableClasses(op);
    var row := Table(op);
    assert row.AsEntry() == Computed(ByReduction).AsEntry() <==> row.Computed? && row.formula == ByReduction;
  }
}
