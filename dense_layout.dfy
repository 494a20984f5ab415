/** The parameter layout of the dense blocks of the face feature extractors, shared by the flat
    builders and the weight-map builders: three or four convolutions `conv0..conv3`, of which only
    `conv0` of a first layer is a plain 3×3 convolution and every other one is separable. */
module DenseLayers {
  import opened Common
  import opened Params
  import opened Layers

  /** `conv0` is a plain convolution in the first layer and a separable one otherwise. */
  function Conv0Layout(isFirstLayer: bool): Layout {
    if isFirstLayer then ConvLayout() else SeparableLayout()
  }

  function DenseBlock3Members(isFirstLayer: bool): seq<Member> {
    [Member("conv0", Conv0Layout(isFirstLayer)), Member("conv1", SeparableLayout()), Member("conv2", SeparableLayout())]
  }

  /** `{ conv0, conv1, conv2 }` */
  function DenseBlock3Layout(isFirstLayer: bool): Layout {
    Group(DenseBlock3Members(isFirstLayer))
  }

  /** `{ conv0, conv1, conv2, conv3 }`: the block of three, then a separable `conv3`. */
  function DenseBlock4Layout(isFirstLayer: bool): Layout {
    Group(DenseBlock3Members(isFirstLayer) + [Member("conv3", SeparableLayout())])
  }

  /** `{ dense0, dense1, dense2, dense3 }` of the face feature extractor; only `dense0` is a first layer. */
  function FeatureExtractorLayout(): Layout {
    Group([Member("dense0", DenseBlock4Layout(true)), Member("dense1", DenseBlock4Layout(false)),
           Member("dense2", DenseBlock4Layout(false)), Member("dense3", DenseBlock4Layout(false))])
  }

  /** `{ dense0, dense1, dense2 }` of the tiny face feature extractor; only `dense0` is a first layer. */
  function TinyFeatureExtractorLayout(): Layout {
    Group([Member("dense0", DenseBlock3Layout(true)), Member("dense1", DenseBlock3Layout(false)),
           Member("dense2", DenseBlock3Layout(false))])
  }

  // ----- footprints -----------------------------------------------------------------------

  function Conv0Footprint(channelsIn: nat, channelsOut: nat, isFirstLayer: bool): nat {
    if isFirstLayer then ConvFootprint(channelsIn, channelsOut, 3) else SeparableFootprint(channelsIn, channelsOut)
  }

  function DenseBlock3Footprint(channelsIn: nat, channelsOut: nat, isFirstLayer: bool): nat {
    Conv0Footprint(channelsIn, channelsOut, isFirstLayer) + 2 * SeparableFootprint(channelsOut, channelsOut)
  }

  function DenseBlock4Footprint(channelsIn: nat, channelsOut: nat, isFirstLayer: bool): nat {
    DenseBlock3Footprint(channelsIn, channelsOut, isFirstLayer) + SeparableFootprint(channelsOut, channelsOut)
  }

  // ----- shapes ---------------------------------------------------------------------------

  /** The tensors `conv0` cuts from the buffer: a 3×3 filter and a bias in the first layer, the three
      tensors of a separable convolution otherwise. */
  function Conv0Shapes(channelsIn: nat, channelsOut: nat, isFirstLayer: bool): (ss: seq<seq<nat>>)
    ensures TotalSize(ss) == Conv0Footprint(channelsIn, channelsOut, isFirstLayer)
  {
    if isFirstLayer then ConvShapes(channelsIn, channelsOut, 3) else SeparableShapes(channelsIn, channelsOut)
  }

  /** `conv0`, then the separable `conv1` and `conv2`, out→out. */
  function DenseBlock3Shapes(channelsIn: nat, channelsOut: nat, isFirstLayer: bool): (ss: seq<seq<nat>>)
    ensures TotalSize(ss) == DenseBlock3Footprint(channelsIn, channelsOut, isFirstLayer)
  {
    var s0, s := Conv0Shapes(channelsIn, channelsOut, isFirstLayer), SeparableShapes(channelsOut, channelsOut);
    TotalSizeAppend(s0, s);
    TotalSizeAppend(s0 + s, s);
    s0 + s + s
  }

  /** The block of three, then the separable `conv3`, out→out. */
  function DenseBlock4Shapes(channelsIn: nat, channelsOut: nat, isFirstLayer: bool): (ss: seq<seq<nat>>)
    ensures TotalSize(ss) == DenseBlock4Footprint(channelsIn, channelsOut, isFirstLayer)
  {
    TotalSizeAppend(DenseBlock3Shapes(channelsIn, channelsOut, isFirstLayer), SeparableShapes(channelsOut, channelsOut));
    DenseBlock3Shapes(channelsIn, channelsOut, isFirstLayer) + SeparableShapes(channelsOut, channelsOut)
  }

  // ----- paths ----------------------------------------------------------------------------

  /** The paths of a block of three are `<prefix>/conv0`, `<prefix>/conv1`, `<prefix>/conv2`, in order. */
  lemma DenseBlock3Paths(at: string, isFirstLayer: bool)
    ensures LayoutPaths(Some(at), DenseBlock3Layout(isFirstLayer)) ==
      LayoutPaths(Some(Under(at, "conv0")), Conv0Layout(isFirstLayer))
      + LayoutPaths(Some(Under(at, "conv1")), SeparableLayout())
      + LayoutPaths(Some(Under(at, "conv2")), SeparableLayout())
  {
    Group3(Some(at), Member("conv0", Conv0Layout(isFirstLayer)), Member("conv1", SeparableLayout()), Member("conv2", SeparableLayout()));
  }

  /** A block of four has the paths of the block of three with the same arguments, then `<prefix>/conv3`. */
  lemma DenseBlock4Paths(at: string, isFirstLayer: bool)
    ensures LayoutPaths(Some(at), DenseBlock4Layout(isFirstLayer)) ==
      LayoutPaths(Some(at), DenseBlock3Layout(isFirstLayer)) + LayoutPaths(Some(Under(at, "conv3")), SeparableLayout())
  {
    MembersPathsAppend(Some(at), DenseBlock3Members(isFirstLayer), Member("conv3", SeparableLayout()));
  }
}
