/** The flat-buffer dense-block builders of `extractorsFactory(extractWeights, paramMappings)`. */
module DenseParams {
  import opened Common
  import opened Params
  import opened Sources
  import opened Layers
  import opened DenseLayers

  /** `isFirstLayer ? extractConvParams(channelsIn, channelsOut, 3, p) : extractSeparableConvParams(channelsIn, channelsOut, p)` */
  method ExtractConv0(c: WeightCursor, channelsIn: nat, channelsOut: nat, prefix: string, isFirstLayer: bool)
    returns (r: Result<Node>)
    requires c.Valid()
    modifies c
    ensures c.Valid()
    ensures r.Success? <==> Conv0Footprint(channelsIn, channelsOut, isFirstLayer) <= old(c.Remaining())
    ensures r.Failure? ==> r.error.WeightsExhausted?
    ensures r.Success? ==>
      && c.pos == old(c.pos) + Conv0Footprint(channelsIn, channelsOut, isFirstLayer)
      && c.paramMappings == old(c.paramMappings) + LayoutPaths(Some(prefix), Conv0Layout(isFirstLayer))
      && Conforms(r.value, Conv0Layout(isFirstLayer))
      && Data(r.value) == c.weights[old(c.pos)..c.pos]
      && CutFrom(Tensors(r.value), c.weights, old(c.pos), Conv0Shapes(channelsIn, channelsOut, isFirstLayer))
  {
    if isFirstLayer {
      r := ExtractConvParams(c, channelsIn, channelsOut, 3, prefix);
    } else {
      r := ExtractSeparableConvParams(c, channelsIn, channelsOut, prefix);
    }
  }

  /** `extractDenseBlock3Params(channelsIn, channelsOut, mappedPrefix, isFirstLayer = false)`:
      `conv0` is a 3×3 convolution in→out in the first layer and a separable one in→out otherwise;
      `conv1` and `conv2` are separable out→out. */
  method ExtractDenseBlock3Params(c: WeightCursor, channelsIn: nat, channelsOut: nat, prefix: string, isFirstLayer: bool := false)
    returns (r: Result<Node>)
    requires c.Valid()
    modifies c
    ensures c.Valid()
    ensures r.Success? <==> DenseBlock3Footprint(channelsIn, channelsOut, isFirstLayer) <= old(c.Remaining())
    ensures r.Failure? ==> r.error.WeightsExhausted?
    ensures r.Success? ==>
      && c.pos == old(c.pos) + DenseBlock3Footprint(channelsIn, channelsOut, isFirstLayer)
      && c.paramMappings == old(c.paramMappings) + LayoutPaths(Some(prefix), DenseBlock3Layout(isFirstLayer))
      && Conforms(r.value, DenseBlock3Layout(isFirstLayer))
      && Data(r.value) == c.weights[old(c.pos)..c.pos]
      && CutFrom(Tensors(r.value), c.weights, old(c.pos), DenseBlock3Shapes(channelsIn, channelsOut, isFirstLayer))
  {
    ghost var a, p0 := c.pos, c.paramMappings;
    var conv0 :- ExtractConv0(c, channelsIn, channelsOut, Under(prefix, "conv0"), isFirstLayer);
    ghost var b := c.pos;
    var conv1 :- ExtractSeparableConvParams(c, channelsOut, channelsOut, Under(prefix, "conv1"));
    ghost var d := c.pos;
    var conv2 :- ExtractSeparableConvParams(c, channelsOut, channelsOut, Under(prefix, "conv2"));
    var e0, e1, e2 := Entry("conv0", conv0), Entry("conv1", conv1), Entry("conv2", conv2);
    DenseBlock3Paths(prefix, isFirstLayer);
    AppendAssoc3(p0, LayoutPaths(Some(Under(prefix, "conv0")), Conv0Layout(isFirstLayer)),
      LayoutPaths(Some(Under(prefix, "conv1")), SeparableLayout()), LayoutPaths(Some(Under(prefix, "conv2")), SeparableLayout()));
    Obj3(None, e0, e1, e2);
    Conforms3(e0, e1, e2, Member("conv0", Conv0Layout(isFirstLayer)), Member("conv1", SeparableLayout()), Member("conv2", SeparableLayout()));
    SliceConcat3(c.weights, a, b, d, c.pos);
    ObjCut3(c.weights, a, b, d, e0, e1, e2, Conv0Shapes(channelsIn, channelsOut, isFirstLayer),
      SeparableShapes(channelsOut, channelsOut), SeparableShapes(channelsOut, channelsOut));
    r := Success(Obj([e0, e1, e2]));
  }

  /** `extractDenseBlock4Params(channelsIn, channelsOut, mappedPrefix, isFirstLayer = false)`: the
      block of three with the same arguments, then a separable `conv3` out→out. */
  method ExtractDenseBlock4Params(c: WeightCursor, channelsIn: nat, channelsOut: nat, prefix: string, isFirstLayer: bool := false)
    returns (r: Result<Node>)
    requires c.Valid()
    modifies c
    ensures c.Valid()
    ensures r.Success? <==> DenseBlock4Footprint(channelsIn, channelsOut, isFirstLayer) <= old(c.Remaining())
    ensures r.Failure? ==> r.error.WeightsExhausted?
    ensures r.Success? ==>
      && c.pos == old(c.pos) + DenseBlock4Footprint(channelsIn, channelsOut, isFirstLayer)
      && c.paramMappings == old(c.paramMappings) + LayoutPaths(Some(prefix), DenseBlock4Layout(isFirstLayer))
      && Conforms(r.value, DenseBlock4Layout(isFirstLayer))
      && Data(r.value) == c.weights[old(c.pos)..c.pos]
      && CutFrom(Tensors(r.value), c.weights, old(c.pos), DenseBlock4Shapes(channelsIn, channelsOut, isFirstLayer))
  {
    ghost var a, p0 := c.pos, c.paramMappings;
    var block3 :- ExtractDenseBlock3Params(c, channelsIn, channelsOut, prefix, isFirstLayer);
    ghost var b := c.pos;
    var conv3 :- ExtractSeparableConvParams(c, channelsOut, channelsOut, Under(prefix, "conv3"));
    assert block3.Obj?;
    var e3 := Entry("conv3", conv3);
    AppendEntry(Some(prefix), block3.entries, DenseBlock3Members(isFirstLayer), e3, Member("conv3", SeparableLayout()));
    DenseBlock4Paths(prefix, isFirstLayer);
    AppendAssoc(p0, LayoutPaths(Some(prefix), DenseBlock3Layout(isFirstLayer)), LayoutPaths(Some(Under(prefix, "conv3")), SeparableLayout()));
    SliceConcat(c.weights, a, b, c.pos);
    CutFromAppend(Tensors(block3), Tensors(conv3), c.weights, a, b,
      DenseBlock3Shapes(channelsIn, channelsOut, isFirstLayer), SeparableShapes(channelsOut, channelsOut));
    r := Success(Obj(block3.entries + [e3]));
  }
}
