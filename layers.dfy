/** The layer builders shared by every architecture: a plain convolution, a depthwise separable
    convolution and a fully connected layer, each read from the flat buffer or looked up in a
    weight map. They are the `extractConvParamsFactory`, `extractSeparableConvParamsFactory`,
    `extractFCParamsFactory`, `loadConvParamsFactory` and `loadSeparableConvParamsFactory` helpers
    the architectures call; their layouts are those the forward passes read (`params.filters`,
    `params.bias`, `params.depthwise_filter`, `params.pointwise_filter`, `params.weights`). */
module Layers {
  import opened Common
  import opened Params
  import opened Sources

  // ----- layouts and footprints -----------------------------------------------------------

  /** `{ filters, bias }` */
  function ConvLayout(): Layout {
    Group([Member("filters", Rank(4)), Member("bias", Rank(1))])
  }

  /** `{ depthwise_filter, pointwise_filter, bias }` */
  function SeparableLayout(): Layout {
    Group([Member("depthwise_filter", Rank(4)), Member("pointwise_filter", Rank(4)), Member("bias", Rank(1))])
  }

  /** `{ weights, bias }` */
  function FcLayout(): Layout {
    Group([Member("weights", Rank(2)), Member("bias", Rank(1))])
  }

  function ConvFootprint(cIn: nat, cOut: nat, fs: nat): nat {
    cIn * cOut * fs * fs + cOut
  }

  /** The depthwise filter is always 3×3. */
  function SeparableFootprint(cIn: nat, cOut: nat): nat {
    3 * 3 * cIn + cIn * cOut + cOut
  }

  function FcFootprint(cIn: nat, cOut: nat): nat {
    cIn * cOut + cOut
  }

  // ----- the shapes a layer cuts from a flat buffer -------------------------------------

  /** Filters `[fs, fs, cIn, cOut]`, then bias `[cOut]`. */
  function ConvShapes(cIn: nat, cOut: nat, fs: nat): (ss: seq<seq<nat>>)
    ensures TotalSize(ss) == ConvFootprint(cIn, cOut, fs)
  {
    Size4(fs, fs, cIn, cOut);
    Size1(cOut);
    TotalSize2([fs, fs, cIn, cOut], [cOut]);
    [[fs, fs, cIn, cOut], [cOut]]
  }

  /** Depthwise filter `[3, 3, cIn, 1]`, pointwise filter `[1, 1, cIn, cOut]`, then bias `[cOut]`. */
  function SeparableShapes(cIn: nat, cOut: nat): (ss: seq<seq<nat>>)
    ensures TotalSize(ss) == SeparableFootprint(cIn, cOut)
  {
    Size4(3, 3, cIn, 1);
    Size4(1, 1, cIn, cOut);
    Size1(cOut);
    TotalSize3([3, 3, cIn, 1], [1, 1, cIn, cOut], [cOut]);
    [[3, 3, cIn, 1], [1, 1, cIn, cOut], [cOut]]
  }

  /** Weights `[cIn, cOut]`, then bias `[cOut]`. */
  function FcShapes(cIn: nat, cOut: nat): (ss: seq<seq<nat>>)
    ensures TotalSize(ss) == FcFootprint(cIn, cOut)
  {
    Size2(cIn, cOut);
    Size1(cOut);
    TotalSize2([cIn, cOut], [cOut]);
    [[cIn, cOut], [cOut]]
  }

  lemma FilterCount(cIn: nat, cOut: nat, fs: nat)
    ensures fs * fs * cIn * cOut == cIn * cOut * fs * fs
  {
    var f2 := fs * fs;
    var io := cIn * cOut;
    assert fs * fs * cIn * cOut == f2 * cIn * cOut == f2 * io;
    assert cIn * cOut * fs * fs == io * fs * fs == io * f2;
  }

  /** The conv tensors at `at`: the `cIn·cOut·fs·fs` filter values, then the `cOut` bias values. */
  lemma ConvTensors(w: seq<real>, at: nat, cIn: nat, cOut: nat, fs: nat)
    requires at + ConvFootprint(cIn, cOut, fs) <= |w|
    ensures var b := at + cIn * cOut * fs * fs;
      TensorsAt(w, at, ConvShapes(cIn, cOut, fs)) ==
        [Tensor([fs, fs, cIn, cOut], w[at..b]), Tensor([cOut], w[b..b + cOut])]
  {
    Size4(fs, fs, cIn, cOut);
    Size1(cOut);
    FilterCount(cIn, cOut, fs);
    TensorsAt2(w, at, [fs, fs, cIn, cOut], [cOut]);
  }

  /** The separable tensors at `at`: `9·cIn` depthwise values, `cIn·cOut` pointwise values, `cOut` bias
      values. */
  lemma SeparableTensors(w: seq<real>, at: nat, cIn: nat, cOut: nat)
    requires at + SeparableFootprint(cIn, cOut) <= |w|
    ensures var b := at + 3 * 3 * cIn; var d := b + cIn * cOut;
      TensorsAt(w, at, SeparableShapes(cIn, cOut)) ==
        [Tensor([3, 3, cIn, 1], w[at..b]), Tensor([1, 1, cIn, cOut], w[b..d]), Tensor([cOut], w[d..d + cOut])]
  {
    Size4(3, 3, cIn, 1);
    Size4(1, 1, cIn, cOut);
    Size1(cOut);
    TensorsAt3(w, at, [3, 3, cIn, 1], [1, 1, cIn, cOut], [cOut]);
  }

  /** The fc tensors at `at`: the `cIn·cOut` weights, then the `cOut` bias values. */
  lemma FcTensors(w: seq<real>, at: nat, cIn: nat, cOut: nat)
    requires at + FcFootprint(cIn, cOut) <= |w|
    ensures var b := at + cIn * cOut;
      TensorsAt(w, at, FcShapes(cIn, cOut)) == [Tensor([cIn, cOut], w[at..b]), Tensor([cOut], w[b..b + cOut])]
  {
    Size2(cIn, cOut);
    Size1(cOut);
    TensorsAt2(w, at, [cIn, cOut], [cOut]);
  }

  /** The tree a conv layer builds from the next `ConvFootprint` values at `at`. */
  lemma ConvNode(w: seq<real>, at: nat, b: nat, cIn: nat, cOut: nat, fs: nat, node: Node)
    requires b == at + cIn * cOut * fs * fs && b + cOut <= |w|
    requires node == Obj([Entry("filters", Leaf(Tensor([fs, fs, cIn, cOut], w[at..b]))),
                          Entry("bias", Leaf(Tensor([cOut], w[b..b + cOut])))])
    ensures Conforms(node, ConvLayout())
    ensures CutFrom(Tensors(node), w, at, ConvShapes(cIn, cOut, fs))
    ensures Data(node) == w[at..b + cOut]
  {
    var e0, e1 := node.entries[0], node.entries[1];
    Obj2(None, e0, e1);
    Size4(fs, fs, cIn, cOut);
    Size1(cOut);
    FilterCount(cIn, cOut, fs);
    CutFrom2(w, at, e0.node.tensor, e1.node.tensor);
    assert Tensors(node) == [e0.node.tensor, e1.node.tensor];
    SliceConcat(w, at, b, b + cOut);
  }

  /** The tree a separable conv layer builds from the next `SeparableFootprint` values at `at`. */
  lemma SeparableNode(w: seq<real>, at: nat, b: nat, d: nat, cIn: nat, cOut: nat, node: Node)
    requires b == at + 3 * 3 * cIn && d == b + cIn * cOut && d + cOut <= |w|
    requires node == Obj([Entry("depthwise_filter", Leaf(Tensor([3, 3, cIn, 1], w[at..b]))),
                          Entry("pointwise_filter", Leaf(Tensor([1, 1, cIn, cOut], w[b..d]))),
                          Entry("bias", Leaf(Tensor([cOut], w[d..d + cOut])))])
    ensures Conforms(node, SeparableLayout())
    ensures CutFrom(Tensors(node), w, at, SeparableShapes(cIn, cOut))
    ensures Data(node) == w[at..d + cOut]
  {
    var e0, e1, e2 := node.entries[0], node.entries[1], node.entries[2];
    Obj3(None, e0, e1, e2);
    Size4(3, 3, cIn, 1);
    Size4(1, 1, cIn, cOut);
    Size1(cOut);
    CutFrom3(w, at, e0.node.tensor, e1.node.tensor, e2.node.tensor);
    assert Tensors(node) == [e0.node.tensor, e1.node.tensor, e2.node.tensor];
    SliceConcat3(w, at, b, d, d + cOut);
  }

  /** The tree an fc layer builds from the next `FcFootprint` values at `at`. */
  lemma FcNode(w: seq<real>, at: nat, b: nat, cIn: nat, cOut: nat, node: Node)
    requires b == at + cIn * cOut && b + cOut <= |w|
    requires node == Obj([Entry("weights", Leaf(Tensor([cIn, cOut], w[at..b]))), Entry("bias", Leaf(Tensor([cOut], w[b..b + cOut])))])
    ensures Conforms(node, FcLayout())
    ensures CutFrom(Tensors(node), w, at, FcShapes(cIn, cOut))
    ensures Data(node) == w[at..b + cOut]
  {
    var e0, e1 := node.entries[0], node.entries[1];
    Obj2(None, e0, e1);
    Size2(cIn, cOut);
    Size1(cOut);
    CutFrom2(w, at, e0.node.tensor, e1.node.tensor);
    assert Tensors(node) == [e0.node.tensor, e1.node.tensor];
    SliceConcat(w, at, b, b + cOut);
  }

  lemma ConvPaths(at: string)
    ensures LayoutPaths(Some(at), ConvLayout()) == [Under(at, "filters"), Under(at, "bias")]
  {
    Group2(Some(at), Member("filters", Rank(4)), Member("bias", Rank(1)));
  }

  lemma SeparablePaths(at: string)
    ensures LayoutPaths(Some(at), SeparableLayout()) ==
      [Under(at, "depthwise_filter"), Under(at, "pointwise_filter"), Under(at, "bias")]
  {
    Group3(Some(at), Member("depthwise_filter", Rank(4)), Member("pointwise_filter", Rank(4)), Member("bias", Rank(1)));
  }

  lemma FcPaths(at: string)
    ensures LayoutPaths(Some(at), FcLayout()) == [Under(at, "weights"), Under(at, "bias")]
  {
    Group2(Some(at), Member("weights", Rank(2)), Member("bias", Rank(1)));
  }

  /** A map holds an fc layer under `at` exactly when it has its weights at rank 2 and its bias at rank 1. */
  lemma FcAvailable(m: map<string, Tensor>, at: string)
    ensures Available(m, Some(at), FcLayout()) <==> HasTensor(m, Under(at, "weights"), 2) && HasTensor(m, Under(at, "bias"), 1)
  {
    Available2(m, Some(at), Member("weights", Rank(2)), Member("bias", Rank(1)));
  }

  // ----- flat buffer ----------------------------------------------------------------------

  /** Filters `[fs, fs, cIn, cOut]`, then bias `[cOut]`; records `<prefix>/filters`, `<prefix>/bias`. */
  method ExtractConvParams(c: WeightCursor, cIn: nat, cOut: nat, fs: nat, prefix: string) returns (r: Result<Node>)
    requires c.Valid()
    modifies c
    ensures c.Valid()
    ensures r.Success? <==> ConvFootprint(cIn, cOut, fs) <= old(c.Remaining())
    ensures r.Failure? ==> r.error.WeightsExhausted?
    ensures r.Success? ==>
      var a := old(c.pos);
      && c.pos == a + ConvFootprint(cIn, cOut, fs)
      && c.paramMappings == old(c.paramMappings) + LayoutPaths(Some(prefix), ConvLayout())
      && Conforms(r.value, ConvLayout())
      && CutFrom(Tensors(r.value), c.weights, a, ConvShapes(cIn, cOut, fs))
      && Data(r.value) == c.weights[a..c.pos]
  {
    ghost var a := c.pos;
    var filters :- c.ExtractWeights(cIn * cOut * fs * fs);
    ghost var b := c.pos;
    var bias :- c.ExtractWeights(cOut);
    c.Push(Under(prefix, "filters"));
    c.Push(Under(prefix, "bias"));
    var node := Obj([Entry("filters", Leaf(Tensor([fs, fs, cIn, cOut], filters))), Entry("bias", Leaf(Tensor([cOut], bias)))]);
    ConvPaths(prefix);
    ConvNode(c.weights, a, b, cIn, cOut, fs, node);
    r := Success(node);
  }

  /** Depthwise filter `[3, 3, cIn, 1]`, pointwise filter `[1, 1, cIn, cOut]`, bias `[cOut]`, recorded
      under `<prefix>/depthwise_filter`, `<prefix>/pointwise_filter`, `<prefix>/bias`. */
  method ExtractSeparableConvParams(c: WeightCursor, cIn: nat, cOut: nat, prefix: string) returns (r: Result<Node>)
    requires c.Valid()
    modifies c
    ensures c.Valid()
    ensures r.Success? <==> SeparableFootprint(cIn, cOut) <= old(c.Remaining())
    ensures r.Failure? ==> r.error.WeightsExhausted?
    ensures r.Success? ==>
      var a := old(c.pos);
      && c.pos == a + SeparableFootprint(cIn, cOut)
      && c.paramMappings == old(c.paramMappings) + LayoutPaths(Some(prefix), SeparableLayout())
      && Conforms(r.value, SeparableLayout())
      && CutFrom(Tensors(r.value), c.weights, a, SeparableShapes(cIn, cOut))
      && Data(r.value) == c.weights[a..c.pos]
  {
    ghost var a := c.pos;
    var depthwise :- c.ExtractWeights(3 * 3 * cIn);
    ghost var b := c.pos;
    var pointwise :- c.ExtractWeights(cIn * cOut);
    ghost var d := c.pos;
    var bias :- c.ExtractWeights(cOut);
    c.Push(Under(prefix, "depthwise_filter"));
    c.Push(Under(prefix, "pointwise_filter"));
    c.Push(Under(prefix, "bias"));
    var e0 := Entry("depthwise_filter", Leaf(Tensor([3, 3, cIn, 1], depthwise)));
    var e1 := Entry("pointwise_filter", Leaf(Tensor([1, 1, cIn, cOut], pointwise)));
    var e2 := Entry("bias", Leaf(Tensor([cOut], bias)));
    SeparablePaths(prefix);
    SeparableNode(c.weights, a, b, d, cIn, cOut, Obj([e0, e1, e2]));
    r := Success(Obj([e0, e1, e2]));
  }

  /** Weights `[cIn, cOut]`, then bias `[cOut]`; records `<prefix>/weights`, `<prefix>/bias`. */
  method ExtractFcParams(c: WeightCursor, cIn: nat, cOut: nat, prefix: string) returns (r: Result<Node>)
    requires c.Valid()
    modifies c
    ensures c.Valid()
    ensures r.Success? <==> FcFootprint(cIn, cOut) <= old(c.Remaining())
    ensures r.Failure? ==> r.error.WeightsExhausted?
    ensures r.Success? ==>
      var a := old(c.pos);
      && c.pos == a + FcFootprint(cIn, cOut)
      && c.paramMappings == old(c.paramMappings) + LayoutPaths(Some(prefix), FcLayout())
      && Conforms(r.value, FcLayout())
      && CutFrom(Tensors(r.value), c.weights, a, FcShapes(cIn, cOut))
      && Data(r.value) == c.weights[a..c.pos]
  {
    ghost var a := c.pos;
    var weights :- c.ExtractWeights(cIn * cOut);
    ghost var b := c.pos;
    var bias :- c.ExtractWeights(cOut);
    c.Push(Under(prefix, "weights"));
    c.Push(Under(prefix, "bias"));
    var node := Obj([Entry("weights", Leaf(Tensor([cIn, cOut], weights))), Entry("bias", Leaf(Tensor([cOut], bias)))]);
    FcPaths(prefix);
    FcNode(c.weights, a, b, cIn, cOut, node);
    r := Success(node);
  }

  // ----- weight map -----------------------------------------------------------------------

  /** Looks up `<prefix>/filters` (rank 4), then `<prefix>/bias` (rank 1). */
  method LoadConvParams(l: WeightMapLoader, prefix: string) returns (r: Result<Node>)
    modifies l
    ensures l.released == old(l.released)
    ensures r.Success? <==> Available(l.weightMap, Some(prefix), ConvLayout())
    ensures r.Failure? ==> r.error.UnexpectedTensor?
    ensures r.Success? ==>
      && l.paramMappings == old(l.paramMappings) + LayoutPaths(Some(prefix), ConvLayout())
      && Conforms(r.value, ConvLayout())
      && FromMap(l.weightMap, Some(prefix), r.value)
  {
    ConvPaths(prefix);
    var filters :- l.ExtractWeightEntry(Under(prefix, "filters"), 4);
    var bias :- l.ExtractWeightEntry(Under(prefix, "bias"), 1);
    r := Success(Obj([Entry("filters", Leaf(filters)), Entry("bias", Leaf(bias))]));
  }

  /** Looks up `<prefix>/depthwise_filter` (rank 4), `<prefix>/pointwise_filter` (rank 4), then
      `<prefix>/bias` (rank 1). */
  method LoadSeparableConvParams(l: WeightMapLoader, prefix: string) returns (r: Result<Node>)
    modifies l
    ensures l.released == old(l.released)
    ensures r.Success? <==> Available(l.weightMap, Some(prefix), SeparableLayout())
    ensures r.Failure? ==> r.error.UnexpectedTensor?
    ensures r.Success? ==>
      && l.paramMappings == old(l.paramMappings) + LayoutPaths(Some(prefix), SeparableLayout())
      && Conforms(r.value, SeparableLayout())
      && FromMap(l.weightMap, Some(prefix), r.value)
  {
    SeparablePaths(prefix);
    var depthwise :- l.ExtractWeightEntry(Under(prefix, "depthwise_filter"), 4);
    var pointwise :- l.ExtractWeightEntry(Under(prefix, "pointwise_filter"), 4);
    var bias :- l.ExtractWeightEntry(Under(prefix, "bias"), 1);
    r := Success(Obj([Entry("depthwise_filter", Leaf(depthwise)), Entry("pointwise_filter", Leaf(pointwise)), Entry("bias", Leaf(bias))]));
  }

  /** The local `extractFcParams(prefix)` of the fully connected heads: `<prefix>/weights` (rank 2),
      then `<prefix>/bias` (rank 1). */
  method LoadFcParams(l: WeightMapLoader, prefix: string) returns (r: Result<Node>)
    modifies l
    ensures l.released == old(l.released)
    ensures r.Success? <==> Available(l.weightMap, Some(prefix), FcLayout())
    ensures r.Failure? ==> r.error.UnexpectedTensor?
    ensures r.Success? ==>
      && l.paramMappings == old(l.paramMappings) + LayoutPaths(Some(prefix), FcLayout())
      && Conforms(r.value, FcLayout())
      && FromMap(l.weightMap, Some(prefix), r.value)
  {
    FcPaths(prefix);
    var weights :- l.ExtractWeightEntry(Under(prefix, "weights"), 2);
    var bias :- l.ExtractWeightEntry(Under(prefix, "bias"), 1);
    r := Success(Obj([Entry("weights", Leaf(weights)), Entry("bias", Leaf(bias))]));
  }
}
