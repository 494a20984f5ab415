/** The flat-buffer extractor of the face recognition net. Filters are stored filter-major,
    `[numFilters, depth, filterSize, filterSize]`, and transposed to `[filterSize, filterSize, depth,
    numFilters]`; the depth is not stored but derived from the number of values taken. */
module RecognitionParams {
  import opened Common
  import opened Params
  import opened Sources
  import opened Transpose
  import opened Layers
  import opened RecognitionLayers

  /** `weights.length / (numFilters * filterSize * filterSize)` is an integer. JavaScript divides by
      zero to `Infinity` or `NaN`, which `isFloat` also rejects. */
  predicate DepthIntegral(numValues: nat, numFilters: nat, filterSize: nat) {
    numFilters * filterSize * filterSize > 0 && numValues % (numFilters * filterSize * filterSize) == 0
  }

  function Depth(numValues: nat, numFilters: nat, filterSize: nat): nat
    requires DepthIntegral(numValues, numFilters, filterSize)
  {
    numValues / (numFilters * filterSize * filterSize)
  }

  /** The depth is the integer `d` with `numValues == numFilters·d·filterSize²`. */
  lemma DepthProduct(numValues: nat, numFilters: nat, filterSize: nat)
    requires DepthIntegral(numValues, numFilters, filterSize)
    ensures numValues == numFilters * Depth(numValues, numFilters, filterSize) * filterSize * filterSize
  {
    var d := Depth(numValues, numFilters, filterSize);
    assert numValues == (numFilters * filterSize * filterSize) * d;
  }

  /** The filter tensor built from `values` taken filter-major: `[filterSize, filterSize, depth, numFilters]`. */
  function FilterTensor(values: seq<real>, numFilters: nat, filterSize: nat): Tensor
    requires DepthIntegral(|values|, numFilters, filterSize)
  {
    var depth := Depth(|values|, numFilters, filterSize);
    DepthProduct(|values|, numFilters, filterSize);
    Tensor([filterSize, filterSize, depth, numFilters], Transpose2310(values, numFilters, depth, filterSize))
  }

  /** The values a conv layer (filters, bias, scale weights, scale biases) takes. */
  function ConvLayerFootprint(numFilterValues: nat, numFilters: nat): nat {
    numFilterValues + 3 * numFilters
  }

  /** `(isDown ? 0.5 : 1) * numFilterValues`. Every count the net passes with `isDown` is even, so
      the half is an integer (see `RecognitionDepths`). */
  function Conv1FilterValues(numFilterValues: nat, isDown: bool): nat {
    if isDown then numFilterValues / 2 else numFilterValues
  }

  function ResidualFootprint(numFilterValues: nat, numFilters: nat, isDown: bool): nat {
    ConvLayerFootprint(Conv1FilterValues(numFilterValues, isDown), numFilters) + ConvLayerFootprint(numFilterValues, numFilters)
  }

  predicate ResidualDepthsIntegral(numFilterValues: nat, numFilters: nat, filterSize: nat, isDown: bool) {
    DepthIntegral(Conv1FilterValues(numFilterValues, isDown), numFilters, filterSize)
    && DepthIntegral(numFilterValues, numFilters, filterSize)
  }

  // ----- the tensors the net cuts from a flat buffer ------------------------------------------

  /** The four tensors of a conv layer whose values start at `at`: the filters, transposed from
      filter-major order, then the bias, the scale weights and the scale biases, `numFilters` each. */
  function ConvLayerTensors(w: seq<real>, at: nat, numFilterValues: nat, numFilters: nat, filterSize: nat): seq<Tensor>
    requires at + ConvLayerFootprint(numFilterValues, numFilters) <= |w|
    requires DepthIntegral(numFilterValues, numFilters, filterSize)
  {
    var b := at + numFilterValues;
    var d, e := b + numFilters, b + 2 * numFilters;
    [FilterTensor(w[at..b], numFilters, filterSize), Tensor([numFilters], w[b..d]), Tensor([numFilters], w[d..e]),
     Tensor([numFilters], w[e..e + numFilters])]
  }

  /** A residual block's tensors: `conv1`, whose filters are the first `Conv1FilterValues` values,
      then `conv2`, whose filters take the full `numFilterValues`. */
  function ResidualTensors(w: seq<real>, at: nat, numFilterValues: nat, numFilters: nat, filterSize: nat, isDown: bool): seq<Tensor>
    requires at + ResidualFootprint(numFilterValues, numFilters, isDown) <= |w|
    requires ResidualDepthsIntegral(numFilterValues, numFilters, filterSize, isDown)
  {
    var n1 := Conv1FilterValues(numFilterValues, isDown);
    ConvLayerTensors(w, at, n1, numFilters, filterSize)
      + ConvLayerTensors(w, at + ConvLayerFootprint(n1, numFilters), numFilterValues, numFilters, filterSize)
  }

  /** The arguments of one `extractResidualLayerParams` call of the net; every block has 3×3 filters. */
  datatype ResidualArgs = ResidualSpec(numFilterValues: nat, numFilters: nat, isDown: bool)

  /** Arguments whose depths are integers, as all of the net's are. */
  type ResidualSpec = s: ResidualArgs | ResidualDepthsIntegral(s.numFilterValues, s.numFilters, 3, s.isDown)
    witness ResidualSpec(0, 1, false)

  function SpecFootprint(s: ResidualSpec): nat {
    ResidualFootprint(s.numFilterValues, s.numFilters, s.isDown)
  }

  function ResidualsFootprint(specs: seq<ResidualSpec>): nat {
    if specs == [] then 0 else ResidualsFootprint(specs[..|specs| - 1]) + SpecFootprint(specs[|specs| - 1])
  }

  /** The tensors of consecutive residual blocks whose values start at `at`, block after block. */
  function ResidualsTensors(w: seq<real>, at: nat, specs: seq<ResidualSpec>): seq<Tensor>
    requires at + ResidualsFootprint(specs) <= |w|
  {
    if specs == [] then []
    else
      var init, s := specs[..|specs| - 1], specs[|specs| - 1];
      ResidualsTensors(w, at, init)
        + ResidualTensors(w, at + ResidualsFootprint(init), s.numFilterValues, s.numFilters, 3, s.isDown)
  }

  /** One more block after a run: it takes its values after the run's, and its tensors follow. */
  lemma ResidualsSnoc(w: seq<real>, at: nat, xs: seq<ResidualSpec>, s: ResidualSpec, pos: nat)
    requires pos == at + ResidualsFootprint(xs) && pos + SpecFootprint(s) <= |w|
    ensures ResidualsFootprint(xs + [s]) == ResidualsFootprint(xs) + SpecFootprint(s)
    ensures ResidualsTensors(w, at, xs + [s]) ==
      ResidualsTensors(w, at, xs) + ResidualTensors(w, pos, s.numFilterValues, s.numFilters, 3, s.isDown)
  {
    assert (xs + [s])[..|xs|] == xs;
  }

  lemma ResidualsFootprintSnoc(xs: seq<ResidualSpec>, s: ResidualSpec)
    ensures ResidualsFootprint(xs + [s]) == ResidualsFootprint(xs) + SpecFootprint(s)
  {
    assert (xs + [s])[..|xs|] == xs;
  }

  lemma {:induction false} ResidualsFootprintAppend(xs: seq<ResidualSpec>, ys: seq<ResidualSpec>)
    ensures ResidualsFootprint(xs + ys) == ResidualsFootprint(xs) + ResidualsFootprint(ys)
    decreases |ys|
  {
    if ys == [] {
      assert xs + ys == xs;
    } else {
      var init, y := ys[..|ys| - 1], ys[|ys| - 1];
      assert ys == init + [y];
      assert xs + ys == (xs + init) + [y];
      ResidualsFootprintAppend(xs, init);
      ResidualsFootprintSnoc(xs + init, y);
      ResidualsFootprintSnoc(init, y);
    }
  }

  lemma ResidualsCount3(s0: ResidualSpec, s1: ResidualSpec, s2: ResidualSpec)
    ensures ResidualsFootprint([s0, s1, s2]) == SpecFootprint(s0) + SpecFootprint(s1) + SpecFootprint(s2)
  {
    ResidualsFootprintSnoc([], s0);
    assert [] + [s0] == [s0];
    ResidualsFootprintSnoc([s0], s1);
    assert [s0] + [s1] == [s0, s1];
    ResidualsFootprintSnoc([s0, s1], s2);
    assert [s0, s1] + [s2] == [s0, s1, s2];
  }

  lemma ResidualsCount4(s0: ResidualSpec, s1: ResidualSpec, s2: ResidualSpec, s3: ResidualSpec)
    ensures ResidualsFootprint([s0, s1, s2, s3]) == SpecFootprint(s0) + SpecFootprint(s1) + SpecFootprint(s2) + SpecFootprint(s3)
  {
    ResidualsCount3(s0, s1, s2);
    ResidualsFootprintSnoc([s0, s1, s2], s3);
    assert [s0, s1, s2] + [s3] == [s0, s1, s2, s3];
  }

  /** `conv32_1..3`. */
  function Conv32Specs(): (specs: seq<ResidualSpec>)
    ensures ResidualsFootprint(specs) == 55872
  {
    RecognitionDepths();
    var s := ResidualSpec(9216, 32, false);
    ResidualsCount3(s, s, s);
    [s, s, s]
  }

  /** `conv64_down` (halving the depth of its `conv1`), then `conv64_1..3`. */
  function Conv64Specs(): (specs: seq<ResidualSpec>)
    ensures ResidualsFootprint(specs) == 278016
  {
    RecognitionDepths();
    var s := ResidualSpec(36864, 64, false);
    ResidualsCount4(ResidualSpec(36864, 64, true), s, s, s);
    [ResidualSpec(36864, 64, true), s, s, s]
  }

  /** `conv128_down`, then `conv128_1..2`. */
  function Conv128Specs(): (specs: seq<ResidualSpec>)
    ensures ResidualsFootprint(specs) == 813312
  {
    RecognitionDepths();
    var s := ResidualSpec(147456, 128, false);
    ResidualsCount3(ResidualSpec(147456, 128, true), s, s);
    [ResidualSpec(147456, 128, true), s, s]
  }

  /** `conv256_down`, `conv256_1..2` and `conv256_down_out`. */
  function Conv256Specs(): (specs: seq<ResidualSpec>)
    ensures ResidualsFootprint(specs) == 4429824
  {
    RecognitionDepths();
    var s := ResidualSpec(589824, 256, false);
    ResidualsCount4(ResidualSpec(589824, 256, true), s, s, s);
    [ResidualSpec(589824, 256, true), s, s, s]
  }

  /** All fourteen residual blocks, in the order the net takes them. */
  function RecognitionResiduals(): (specs: seq<ResidualSpec>)
    ensures ResidualsFootprint(specs) == 5577024
  {
    ResidualsFootprintAppend(Conv32Specs(), Conv64Specs());
    ResidualsFootprintAppend(Conv32Specs() + Conv64Specs(), Conv128Specs());
    ResidualsFootprintAppend(Conv32Specs() + Conv64Specs() + Conv128Specs(), Conv256Specs());
    Conv32Specs() + Conv64Specs() + Conv128Specs() + Conv256Specs()
  }

  /** The tensors of the whole net, in key order: `conv32_down`, a 7×7 conv layer over the 3 input
      channels; the fourteen residual blocks; then `fc`, the last `256·128` values read as a
      `[128, 256]` matrix and transposed. */
  function RecognitionTensors(w: seq<real>): seq<Tensor>
    requires |w| == RecognitionFootprint
  {
    RecognitionDepths();
    ConvLayerTensors(w, 0, 4704, 32, 7) + ResidualsTensors(w, 4800, RecognitionResiduals())
      + [Tensor([256, 128], Transpose10(w[FcOffset..], 128, 256))]
  }

  /** The number of values the whole recognition net takes. */
  const RecognitionFootprint: nat := 5614592

  /** Where the `fc` matrix starts in a buffer of exactly `RecognitionFootprint` values. */
  const FcOffset: nat := RecognitionFootprint - 256 * 128

  datatype Extraction = Extraction(params: Node, paramMappings: seq<string>)

  /** `extractFilterValues`: takes `numFilterValues` values and transposes them from filter-major order. */
  method ExtractFilterValues(c: WeightCursor, numFilterValues: nat, numFilters: nat, filterSize: nat) returns (r: Result<Tensor>)
    requires c.Valid()
    modifies c
    ensures c.Valid() && c.paramMappings == old(c.paramMappings)
    ensures r.Success? <==> numFilterValues <= old(c.Remaining()) && DepthIntegral(numFilterValues, numFilters, filterSize)
    ensures numFilterValues > old(c.Remaining()) ==> r == Failure(WeightsExhausted(numFilterValues, old(c.Remaining())))
    ensures numFilterValues <= old(c.Remaining()) && !DepthIntegral(numFilterValues, numFilters, filterSize) ==>
      r == Failure(DepthNotInteger(numFilterValues, numFilters, filterSize))
    ensures r.Success? ==>
      && c.pos == old(c.pos) + numFilterValues
      && r.value == FilterTensor(c.weights[old(c.pos)..c.pos], numFilters, filterSize)
  {
    var weights :- c.ExtractWeights(numFilterValues);
    if !DepthIntegral(|weights|, numFilters, filterSize) {
      return Failure(DepthNotInteger(|weights|, numFilters, filterSize));
    }
    r := Success(FilterTensor(weights, numFilters, filterSize));
  }

  /** `extractConvParams`: the transposed filters, then a bias of `numFilters` values. */
  method ExtractConvParams(c: WeightCursor, numFilterValues: nat, numFilters: nat, filterSize: nat, prefix: string)
    returns (r: Result<Node>)
    requires c.Valid()
    modifies c
    ensures c.Valid()
    ensures r.Success? <==>
      numFilterValues + numFilters <= old(c.Remaining()) && DepthIntegral(numFilterValues, numFilters, filterSize)
    ensures r.Failure? && DepthIntegral(numFilterValues, numFilters, filterSize) ==> r.error.WeightsExhausted?
    ensures r.Failure? ==> r.error.WeightsExhausted? || r.error.DepthNotInteger?
    ensures r.Success? ==>
      var a, b := old(c.pos), old(c.pos) + numFilterValues;
      && c.pos == b + numFilters
      && c.paramMappings == old(c.paramMappings) + LayoutPaths(Some(prefix), ConvLayout())
      && Conforms(r.value, ConvLayout())
      && Tensors(r.value) == [FilterTensor(c.weights[a..b], numFilters, filterSize), Tensor([numFilters], c.weights[b..c.pos])]
  {
    var filters :- ExtractFilterValues(c, numFilterValues, numFilters, filterSize);
    var bias :- c.ExtractWeights(numFilters);
    c.Push(Under(prefix, "filters"));
    c.Push(Under(prefix, "bias"));
    var node := Obj([Entry("filters", Leaf(filters)), Entry("bias", Leaf(Tensor([numFilters], bias)))]);
    ConvPaths(prefix);
    Obj2(None, node.entries[0], node.entries[1]);
    r := Success(node);
  }

  /** `extractScaleLayerParams`: `numWeights` scale weights, then `numWeights` biases. */
  method ExtractScaleLayerParams(c: WeightCursor, numWeights: nat, prefix: string) returns (r: Result<Node>)
    requires c.Valid()
    modifies c
    ensures c.Valid()
    ensures r.Success? <==> 2 * numWeights <= old(c.Remaining())
    ensures r.Failure? ==> r.error.WeightsExhausted?
    ensures r.Success? ==>
      var a, b := old(c.pos), old(c.pos) + numWeights;
      && c.pos == b + numWeights
      && c.paramMappings == old(c.paramMappings) + LayoutPaths(Some(prefix), ScaleLayout())
      && Conforms(r.value, ScaleLayout())
      && Tensors(r.value) == [Tensor([numWeights], c.weights[a..b]), Tensor([numWeights], c.weights[b..c.pos])]
  {
    var weights :- c.ExtractWeights(numWeights);
    var biases :- c.ExtractWeights(numWeights);
    c.Push(Under(prefix, "weights"));
    c.Push(Under(prefix, "biases"));
    var node := Obj([Entry("weights", Leaf(Tensor([numWeights], weights))), Entry("biases", Leaf(Tensor([numWeights], biases)))]);
    ScalePaths(prefix);
    Obj2(None, node.entries[0], node.entries[1]);
    r := Success(node);
  }

  /** `extractConvLayerParams`: the conv under `<prefix>/conv`, then the scale layer under
      `<prefix>/scale`; `numFilterValues + 3·numFilters` values in the order filters, bias, scale
      weights, scale biases. */
  method ExtractConvLayerParams(c: WeightCursor, numFilterValues: nat, numFilters: nat, filterSize: nat, prefix: string)
    returns (r: Result<Node>)
    requires c.Valid()
    modifies c
    ensures c.Valid()
    ensures r.Success? <==>
      ConvLayerFootprint(numFilterValues, numFilters) <= old(c.Remaining()) && DepthIntegral(numFilterValues, numFilters, filterSize)
    ensures r.Failure? && DepthIntegral(numFilterValues, numFilters, filterSize) ==> r.error.WeightsExhausted?
    ensures r.Failure? ==> r.error.WeightsExhausted? || r.error.DepthNotInteger?
    ensures r.Success? ==>
      && c.pos == old(c.pos) + ConvLayerFootprint(numFilterValues, numFilters)
      && c.paramMappings == old(c.paramMappings) + LayoutPaths(Some(prefix), ConvLayerLayout())
      && Conforms(r.value, ConvLayerLayout())
      && Tensors(r.value) == ConvLayerTensors(c.weights, old(c.pos), numFilterValues, numFilters, filterSize)
  {
    var conv :- ExtractConvParams(c, numFilterValues, numFilters, filterSize, Under(prefix, "conv"));
    var scale :- ExtractScaleLayerParams(c, numFilters, Under(prefix, "scale"));
    var e0, e1 := Entry("conv", conv), Entry("scale", scale);
    Group2(Some(prefix), Member("conv", ConvLayout()), Member("scale", ScaleLayout()));
    Conforms2(e0, e1, Member("conv", ConvLayout()), Member("scale", ScaleLayout()));
    EntriesTensorsAppend([e0], e1);
    assert [e0] + [e1] == [e0, e1];
    assert [e0][..0] == [];
    r := Success(Obj([e0, e1]));
  }

  /** `extractResidualLayerParams`: `<prefix>/conv1` (with half the filter values when `isDown`),
      then `<prefix>/conv2`. */
  method ExtractResidualLayerParams(c: WeightCursor, numFilterValues: nat, numFilters: nat, filterSize: nat, prefix: string,
                                    isDown: bool := false)
    returns (r: Result<Node>)
    requires c.Valid()
    modifies c
    ensures c.Valid()
    ensures r.Success? <==>
      ResidualFootprint(numFilterValues, numFilters, isDown) <= old(c.Remaining())
      && ResidualDepthsIntegral(numFilterValues, numFilters, filterSize, isDown)
    ensures r.Failure? && ResidualDepthsIntegral(numFilterValues, numFilters, filterSize, isDown) ==> r.error.WeightsExhausted?
    ensures r.Failure? ==> r.error.WeightsExhausted? || r.error.DepthNotInteger?
    ensures r.Success? ==>
      && c.pos == old(c.pos) + ResidualFootprint(numFilterValues, numFilters, isDown)
      && c.paramMappings == old(c.paramMappings) + LayoutPaths(Some(prefix), ResidualLayout())
      && Conforms(r.value, ResidualLayout())
      && Tensors(r.value) == ResidualTensors(c.weights, old(c.pos), numFilterValues, numFilters, filterSize, isDown)
  {
    ghost var a, before := c.pos, c.paramMappings;
    var conv1 :- ExtractConvLayerParams(c, Conv1FilterValues(numFilterValues, isDown), numFilters, filterSize, Under(prefix, "conv1"));
    ghost var mid := c.pos;
    var conv2 :- ExtractConvLayerParams(c, numFilterValues, numFilters, filterSize, Under(prefix, "conv2"));
    Group2(Some(prefix), Member("conv1", ConvLayerLayout()), Member("conv2", ConvLayerLayout()));
    AppendAssoc(before, LayoutPaths(Some(Under(prefix, "conv1")), ConvLayerLayout()), LayoutPaths(Some(Under(prefix, "conv2")), ConvLayerLayout()));
    Conforms2(Entry("conv1", conv1), Entry("conv2", conv2), Member("conv1", ConvLayerLayout()), Member("conv2", ConvLayerLayout()));
    r := Success(Obj([Entry("conv1", conv1), Entry("conv2", conv2)]));
    ResidualNode(c.weights, a, mid, numFilterValues, numFilters, filterSize, isDown, conv1, conv2);
  }

  /** The block `{ conv1, conv2 }` of two conv layers cut one after the other holds the block's tensors. */
  lemma ResidualNode(w: seq<real>, at: nat, mid: nat, numFilterValues: nat, numFilters: nat, filterSize: nat, isDown: bool,
                     conv1: Node, conv2: Node)
    requires at + ResidualFootprint(numFilterValues, numFilters, isDown) <= |w|
    requires ResidualDepthsIntegral(numFilterValues, numFilters, filterSize, isDown)
    requires mid == at + ConvLayerFootprint(Conv1FilterValues(numFilterValues, isDown), numFilters)
    requires Tensors(conv1) == ConvLayerTensors(w, at, Conv1FilterValues(numFilterValues, isDown), numFilters, filterSize)
    requires Tensors(conv2) == ConvLayerTensors(w, mid, numFilterValues, numFilters, filterSize)
    ensures Tensors(Obj([Entry("conv1", conv1), Entry("conv2", conv2)])) ==
      ResidualTensors(w, at, numFilterValues, numFilters, filterSize, isDown)
  {
    Obj2(None, Entry("conv1", conv1), Entry("conv2", conv2));
  }

  /** With the hard-coded filter counts every depth is an integer: 3 input channels for
      `conv32_down`, 32, 64 and 128 for the `conv1` of the three down blocks, and the block's own
      width everywhere else (also for `conv256_down_out`, which is extracted as a plain block). */
  lemma RecognitionDepths()
    ensures DepthIntegral(4704, 32, 7) && Depth(4704, 32, 7) == 3
    ensures ResidualDepthsIntegral(9216, 32, 3, false) && Depth(9216, 32, 3) == 32
    ensures ResidualDepthsIntegral(36864, 64, 3, true) && Depth(Conv1FilterValues(36864, true), 64, 3) == 32
    ensures ResidualDepthsIntegral(36864, 64, 3, false) && Depth(36864, 64, 3) == 64
    ensures ResidualDepthsIntegral(147456, 128, 3, true) && Depth(Conv1FilterValues(147456, true), 128, 3) == 64
    ensures ResidualDepthsIntegral(147456, 128, 3, false) && Depth(147456, 128, 3) == 128
    ensures ResidualDepthsIntegral(589824, 256, 3, true) && Depth(Conv1FilterValues(589824, true), 256, 3) == 128
    ensures ResidualDepthsIntegral(589824, 256, 3, false) && Depth(589824, 256, 3) == 256
  {
  }

  /** The entries built so far hold the tensors `head` (those of `conv32_down`) and then those of
      the residual blocks `done`, and the cursor stands just after their values. */
  ghost predicate Cut(w: seq<real>, pos: nat, es: seq<Entry>, head: seq<Tensor>, done: seq<ResidualSpec>) {
    && 4800 + ResidualsFootprint(done) <= |w|
    && pos == 4800 + ResidualsFootprint(done)
    && EntriesTensors(es) == head + ResidualsTensors(w, 4800, done)
  }

  /** A block appended after the blocks `done` extends the cut by that block. */
  lemma CutSnoc(w: seq<real>, pos: nat, es: seq<Entry>, es': seq<Entry>, head: seq<Tensor>, done: seq<ResidualSpec>,
                s: ResidualSpec)
    requires Cut(w, pos, es, head, done) && pos + SpecFootprint(s) <= |w|
    requires EntriesTensors(es') == EntriesTensors(es) + ResidualTensors(w, pos, s.numFilterValues, s.numFilters, 3, s.isDown)
    ensures Cut(w, pos + SpecFootprint(s), es', head, done + [s])
  {
    ResidualsSnoc(w, 4800, done, s, pos);
    var rs, t := ResidualsTensors(w, 4800, done), ResidualTensors(w, pos, s.numFilterValues, s.numFilters, 3, s.isDown);
    AppendAssoc(head, rs, t);
    assert EntriesTensors(es') == head + (rs + t);
  }

  /** One residual block of `extractParams`, appended to the object built so far. */
  method AddResidual(c: WeightCursor, es: seq<Entry>, ghost ms: seq<Member>, ghost head: seq<Tensor>, ghost done: seq<ResidualSpec>, key: string,
                     s: ResidualSpec)
    returns (r: Result<seq<Entry>>)
    requires Assembled(c, es, ms) && Cut(c.weights, c.pos, es, head, done)
    modifies c
    ensures c.Valid()
    ensures r.Success? <==> SpecFootprint(s) <= old(c.Remaining())
    ensures r.Failure? ==> r.error.WeightsExhausted?
    ensures r.Success? ==>
      && c.pos == old(c.pos) + SpecFootprint(s)
      && |r.value| == |es| + 1
      && Assembled(c, r.value, ms + [Residual(key)])
      && EntriesTensors(r.value) == EntriesTensors(es) + ResidualTensors(c.weights, old(c.pos), s.numFilterValues, s.numFilters, 3, s.isDown)
      && Cut(c.weights, c.pos, r.value, head, done + [s])
  {
    ghost var at := c.pos;
    var block :- ExtractResidualLayerParams(c, s.numFilterValues, s.numFilters, 3, key, s.isDown);
    AppendEntry(None, es, ms, Entry(key, block), Residual(key));
    CutSnoc(c.weights, at, es, es + [Entry(key, block)], head, done, s);
    r := Success(es + [Entry(key, block)]);
  }

  /** `conv32_down`: a 7×7 conv layer with 32 filters over the 3 input channels, 4800 values. */
  method AddConv32Down(c: WeightCursor) returns (r: Result<seq<Entry>>)
    requires Assembled(c, [], [])
    modifies c
    ensures c.Valid()
    ensures r.Success? <==> 4800 <= old(c.Remaining())
    ensures r.Failure? ==> r.error.WeightsExhausted?
    ensures r.Success? ==>
      && c.pos == old(c.pos) + 4800
      && |r.value| == 1
      && Assembled(c, r.value, [Member("conv32_down", ConvLayerLayout())])
      && EntriesTensors(r.value) == ConvLayerTensors(c.weights, old(c.pos), 4704, 32, 7)
  {
    assert DepthIntegral(4704, 32, 7);
    var conv32_down :- ExtractConvLayerParams(c, 4704, 32, 7, "conv32_down");
    AppendEntry(None, [], [], Entry("conv32_down", conv32_down), Member("conv32_down", ConvLayerLayout()));
    assert [] + [Entry("conv32_down", conv32_down)] == [Entry("conv32_down", conv32_down)];
    r := Success([Entry("conv32_down", conv32_down)]);
  }

  /** The residual blocks `conv32_1` to `conv32_3`: 55872 values. */
  method ExtractConv32Blocks(c: WeightCursor, es: seq<Entry>, ghost ms: seq<Member>, ghost head: seq<Tensor>, ghost done: seq<ResidualSpec>)
    returns (r: Result<seq<Entry>>)
    requires Assembled(c, es, ms) && Cut(c.weights, c.pos, es, head, done)
    modifies c
    ensures c.Valid()
    ensures r.Success? <==> 55872 <= old(c.Remaining())
    ensures r.Failure? ==> r.error.WeightsExhausted?
    ensures r.Success? ==>
      && c.pos == old(c.pos) + 55872
      && |r.value| == |es| + 3
      && Assembled(c, r.value, ms + Conv32Residuals())
      && Cut(c.weights, c.pos, r.value, head, done + Conv32Specs())
  {
    var block: ResidualSpec := ResidualSpec(9216, 32, false);
    var es0 := es;
    ghost var ms0, done0 := ms, done;
    es0 :- AddResidual(c, es0, ms0, head, done0, "conv32_1", block);
    ms0, done0 := ms0 + [Residual("conv32_1")], done0 + [block];
    es0 :- AddResidual(c, es0, ms0, head, done0, "conv32_2", block);
    ms0, done0 := ms0 + [Residual("conv32_2")], done0 + [block];
    es0 :- AddResidual(c, es0, ms0, head, done0, "conv32_3", block);
    ms0, done0 := ms0 + [Residual("conv32_3")], done0 + [block];
    Snoc3(ms, Residual("conv32_1"), Residual("conv32_2"), Residual("conv32_3"));
    Snoc3(done, block, block, block);
    r := Success(es0);
  }

  /** `conv64_down` and the residual blocks `conv64_1` to `conv64_3`: 278016 values. */
  method ExtractConv64Blocks(c: WeightCursor, es: seq<Entry>, ghost ms: seq<Member>, ghost head: seq<Tensor>, ghost done: seq<ResidualSpec>)
    returns (r: Result<seq<Entry>>)
    requires Assembled(c, es, ms) && Cut(c.weights, c.pos, es, head, done)
    modifies c
    ensures c.Valid()
    ensures r.Success? <==> 278016 <= old(c.Remaining())
    ensures r.Failure? ==> r.error.WeightsExhausted?
    ensures r.Success? ==>
      && c.pos == old(c.pos) + 278016
      && |r.value| == |es| + 4
      && Assembled(c, r.value, ms + Conv64Residuals())
      && Cut(c.weights, c.pos, r.value, head, done + Conv64Specs())
  {
    var down: ResidualSpec := ResidualSpec(36864, 64, true);
    var block: ResidualSpec := ResidualSpec(36864, 64, false);
    var es0 := es;
    ghost var ms0, done0 := ms, done;
    es0 :- AddResidual(c, es0, ms0, head, done0, "conv64_down", down);
    ms0, done0 := ms0 + [Residual("conv64_down")], done0 + [down];
    es0 :- AddResidual(c, es0, ms0, head, done0, "conv64_1", block);
    ms0, done0 := ms0 + [Residual("conv64_1")], done0 + [block];
    es0 :- AddResidual(c, es0, ms0, head, done0, "conv64_2", block);
    ms0, done0 := ms0 + [Residual("conv64_2")], done0 + [block];
    es0 :- AddResidual(c, es0, ms0, head, done0, "conv64_3", block);
    ms0, done0 := ms0 + [Residual("conv64_3")], done0 + [block];
    Snoc4(ms, Residual("conv64_down"), Residual("conv64_1"), Residual("conv64_2"), Residual("conv64_3"));
    Snoc4(done, down, block, block, block);
    r := Success(es0);
  }

  /** `conv128_down`, `conv128_1` and `conv128_2`: 813312 values. */
  method ExtractConv128Blocks(c: WeightCursor, es: seq<Entry>, ghost ms: seq<Member>, ghost head: seq<Tensor>, ghost done: seq<ResidualSpec>)
    returns (r: Result<seq<Entry>>)
    requires Assembled(c, es, ms) && Cut(c.weights, c.pos, es, head, done)
    modifies c
    ensures c.Valid()
    ensures r.Success? <==> 813312 <= old(c.Remaining())
    ensures r.Failure? ==> r.error.WeightsExhausted?
    ensures r.Success? ==>
      && c.pos == old(c.pos) + 813312
      && |r.value| == |es| + 3
      && Assembled(c, r.value, ms + Conv128Residuals())
      && Cut(c.weights, c.pos, r.value, head, done + Conv128Specs())
  {
    var down: ResidualSpec := ResidualSpec(147456, 128, true);
    var block: ResidualSpec := ResidualSpec(147456, 128, false);
    var es0 := es;
    ghost var ms0, done0 := ms, done;
    es0 :- AddResidual(c, es0, ms0, head, done0, "conv128_down", down);
    ms0, done0 := ms0 + [Residual("conv128_down")], done0 + [down];
    es0 :- AddResidual(c, es0, ms0, head, done0, "conv128_1", block);
    ms0, done0 := ms0 + [Residual("conv128_1")], done0 + [block];
    es0 :- AddResidual(c, es0, ms0, head, done0, "conv128_2", block);
    ms0, done0 := ms0 + [Residual("conv128_2")], done0 + [block];
    Snoc3(ms, Residual("conv128_down"), Residual("conv128_1"), Residual("conv128_2"));
    Snoc3(done, down, block, block);
    r := Success(es0);
  }

  /** `conv256_down`, `conv256_1`, `conv256_2` and `conv256_down_out`: 4429824 values. */
  method ExtractConv256Blocks(c: WeightCursor, es: seq<Entry>, ghost ms: seq<Member>, ghost head: seq<Tensor>, ghost done: seq<ResidualSpec>)
    returns (r: Result<seq<Entry>>)
    requires Assembled(c, es, ms) && Cut(c.weights, c.pos, es, head, done)
    modifies c
    ensures c.Valid()
    ensures r.Success? <==> 4429824 <= old(c.Remaining())
    ensures r.Failure? ==> r.error.WeightsExhausted?
    ensures r.Success? ==>
      && c.pos == old(c.pos) + 4429824
      && |r.value| == |es| + 4
      && Assembled(c, r.value, ms + Conv256Residuals())
      && Cut(c.weights, c.pos, r.value, head, done + Conv256Specs())
  {
    var down: ResidualSpec := ResidualSpec(589824, 256, true);
    var block: ResidualSpec := ResidualSpec(589824, 256, false);
    var es0 := es;
    ghost var ms0, done0 := ms, done;
    es0 :- AddResidual(c, es0, ms0, head, done0, "conv256_down", down);
    ms0, done0 := ms0 + [Residual("conv256_down")], done0 + [down];
    es0 :- AddResidual(c, es0, ms0, head, done0, "conv256_1", block);
    ms0, done0 := ms0 + [Residual("conv256_1")], done0 + [block];
    es0 :- AddResidual(c, es0, ms0, head, done0, "conv256_2", block);
    ms0, done0 := ms0 + [Residual("conv256_2")], done0 + [block];
    es0 :- AddResidual(c, es0, ms0, head, done0, "conv256_down_out", block);
    ms0, done0 := ms0 + [Residual("conv256_down_out")], done0 + [block];
    Snoc4(ms, Residual("conv256_down"), Residual("conv256_1"), Residual("conv256_2"), Residual("conv256_down_out"));
    Snoc4(done, down, block, block, block);
    r := Success(es0);
  }

  /** The `fc` matrix: `256·128` values taken as a `[128, 256]` matrix and transposed to `[256, 128]`. */
  method AddFc(c: WeightCursor, es: seq<Entry>, ghost ms: seq<Member>) returns (r: Result<seq<Entry>>)
    requires Assembled(c, es, ms)
    modifies c
    ensures c.Valid()
    ensures r.Success? <==> 256 * 128 <= old(c.Remaining())
    ensures r.Failure? ==> r.error.WeightsExhausted?
    ensures r.Success? ==>
      && c.pos == old(c.pos) + 256 * 128
      && r.value == es + [Entry("fc", Leaf(Tensor([256, 128], Transpose10(c.weights[old(c.pos)..c.pos], 128, 256))))]
      && Assembled(c, r.value, ms + [Member("fc", Rank(2))])
  {
    var fcValues :- c.ExtractWeights(256 * 128);
    var fc := Leaf(Tensor([256, 128], Transpose10(fcValues, 128, 256)));
    c.Push("fc");
    AppendEntry(None, es, ms, Entry("fc", fc), Member("fc", Rank(2)));
    r := Success(es + [Entry("fc", fc)]);
  }

  /** `conv32_down` and the 32- and 64-channel residual blocks, from the start of the buffer: 338688
      values, holding the tensors of `conv32_down` and then of `Conv32Specs` and `Conv64Specs`. */
  method ExtractLowerBlocks(c: WeightCursor) returns (r: Result<seq<Entry>>)
    requires Assembled(c, [], []) && c.pos == 0
    modifies c
    ensures c.Valid()
    ensures r.Success? <==> 338688 <= |c.weights|
    ensures r.Failure? ==> r.error.WeightsExhausted?
    ensures r.Success? ==>
      && c.pos == 338688
      && |r.value| == 8
      && Assembled(c, r.value, [Member("conv32_down", ConvLayerLayout())] + Conv32Residuals() + Conv64Residuals())
      && Cut(c.weights, c.pos, r.value, ConvLayerTensors(c.weights, 0, 4704, 32, 7), Conv32Specs() + Conv64Specs())
  {
    var es :- AddConv32Down(c);
    ghost var head := ConvLayerTensors(c.weights, 0, 4704, 32, 7);
    ghost var ms := [Member("conv32_down", ConvLayerLayout())];
    assert Cut(c.weights, c.pos, es, head, []);
    es :- ExtractConv32Blocks(c, es, ms, head, []);
    EmptyConcat(Conv32Specs());
    es :- ExtractConv64Blocks(c, es, ms + Conv32Residuals(), head, Conv32Specs());
    r := Success(es);
  }

  /** `conv32_down` and the fourteen residual blocks, from the start of the buffer: `FcOffset`
      values, holding the tensors of `conv32_down` and then of `RecognitionResiduals`. */
  method ExtractBlocks(c: WeightCursor) returns (r: Result<seq<Entry>>)
    requires Assembled(c, [], []) && c.pos == 0
    modifies c
    ensures c.Valid()
    ensures r.Success? <==> FcOffset <= |c.weights|
    ensures r.Failure? ==> r.error.WeightsExhausted?
    ensures r.Success? ==>
      && c.pos == FcOffset
      && |r.value| == 15
      && Assembled(c, r.value, [Member("conv32_down", ConvLayerLayout())] + Conv32Residuals() + Conv64Residuals()
                                 + Conv128Residuals() + Conv256Residuals())
      && EntriesTensors(r.value) == ConvLayerTensors(c.weights, 0, 4704, 32, 7) + ResidualsTensors(c.weights, 4800, RecognitionResiduals())
  {
    var es :- ExtractLowerBlocks(c);
    ghost var head := ConvLayerTensors(c.weights, 0, 4704, 32, 7);
    ghost var ms := [Member("conv32_down", ConvLayerLayout())] + Conv32Residuals() + Conv64Residuals();
    ghost var done := Conv32Specs() + Conv64Specs();
    es :- ExtractConv128Blocks(c, es, ms, head, done);
    es :- ExtractConv256Blocks(c, es, ms + Conv128Residuals(), head, done + Conv128Specs());
    r := Success(es);
  }

  /** `extractParams(weights)`: the recognition net from a flat buffer. It succeeds exactly when the
      buffer holds `RecognitionFootprint` values; a shorter buffer runs out, a longer one throws with
      the number of values left over, and no depth error can occur. */
  method ExtractParams(weights: seq<real>) returns (r: Result<Extraction>)
    ensures r.Success? <==> |weights| == RecognitionFootprint
    ensures |weights| < RecognitionFootprint ==> r.Failure? && r.error.WeightsExhausted?
    ensures |weights| > RecognitionFootprint ==> r == Failure(WeightsRemaining(|weights| - RecognitionFootprint))
    ensures r.Success? ==>
      && Conforms(r.value.params, RecognitionLayout())
      && r.value.paramMappings == LayoutPaths(None, RecognitionLayout())
      && r.value.params.entries[15] == Entry("fc", Leaf(Tensor([256, 128], Transpose10(weights[FcOffset..], 128, 256))))
      && Tensors(r.value.params) == RecognitionTensors(weights)
  {
    var c := new WeightCursor(weights);
    var es :- ExtractBlocks(c);
    ghost var blocks := es;
    es :- AddFc(c, es, [Member("conv32_down", ConvLayerLayout())] + Conv32Residuals() + Conv64Residuals()
                         + Conv128Residuals() + Conv256Residuals());
    assert c.Remaining() == |weights| - RecognitionFootprint;
    if c.Remaining() != 0 {
      return Failure(WeightsRemaining(c.Remaining()));
    }
    RecognitionMembersByStage();
    SliceToEnd(weights, FcOffset);
    EntriesTensorsAppend(blocks, es[15]);
    r := Success(Extraction(Obj(es), c.paramMappings));
  }
}
