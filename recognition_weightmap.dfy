/** The weight-map extractor of the face recognition net: every tensor is looked up by its path
    and expected rank, and the entries of the map that no path claims are released at the end. */
module RecognitionWeightMap {
  import opened Common
  import opened Params
  import opened Sources
  import opened Layers
  import opened RecognitionLayers

  /** What `extractParamsFromWeigthMap` returns. */
  datatype Extraction = Extraction(params: Node, paramMappings: seq<string>)

  /** `extractScaleLayerParams(prefix)`: `<prefix>/scale/weights`, then `<prefix>/scale/biases`, both rank 1. */
  method LoadScaleLayerParams(l: WeightMapLoader, prefix: string) returns (r: Result<Node>)
    modifies l
    ensures l.released == old(l.released)
    ensures r.Success? <==> Available(l.weightMap, Some(Under(prefix, "scale")), ScaleLayout())
    ensures r.Failure? ==> r.error.UnexpectedTensor?
    ensures r.Success? ==>
      && l.paramMappings == old(l.paramMappings) + LayoutPaths(Some(Under(prefix, "scale")), ScaleLayout())
      && Conforms(r.value, ScaleLayout())
      && FromMap(l.weightMap, Some(Under(prefix, "scale")), r.value)
  {
    ScalePaths(Under(prefix, "scale"));
    Available2(l.weightMap, Some(Under(prefix, "scale")), Member("weights", Rank(1)), Member("biases", Rank(1)));
    var weights :- l.ExtractWeightEntry(Under(Under(prefix, "scale"), "weights"), 1);
    var biases :- l.ExtractWeightEntry(Under(Under(prefix, "scale"), "biases"), 1);
    r := Success(Obj([Entry("weights", Leaf(weights)), Entry("biases", Leaf(biases))]));
  }

  /** `extractConvLayerParams(prefix)`: `<prefix>/conv/filters` (rank 4), `<prefix>/conv/bias`
      (rank 1), then the scale layer. The two conv lookups are exactly those `LoadConvParams` makes
      under `<prefix>/conv`. */
  method LoadConvLayerParams(l: WeightMapLoader, prefix: string) returns (r: Result<Node>)
    modifies l
    ensures l.released == old(l.released)
    ensures r.Success? <==> Available(l.weightMap, Some(prefix), ConvLayerLayout())
    ensures r.Failure? ==> r.error.UnexpectedTensor?
    ensures r.Success? ==>
      && l.paramMappings == old(l.paramMappings) + LayoutPaths(Some(prefix), ConvLayerLayout())
      && Conforms(r.value, ConvLayerLayout())
      && FromMap(l.weightMap, Some(prefix), r.value)
  {
    Available2(l.weightMap, Some(prefix), Member("conv", ConvLayout()), Member("scale", ScaleLayout()));
    ghost var before := l.paramMappings;
    var conv :- LoadConvParams(l, Under(prefix, "conv"));
    var scale :- LoadScaleLayerParams(l, prefix);
    Group2(Some(prefix), Member("conv", ConvLayout()), Member("scale", ScaleLayout()));
    AppendAssoc(before, LayoutPaths(Some(Under(prefix, "conv")), ConvLayout()), LayoutPaths(Some(Under(prefix, "scale")), ScaleLayout()));
    r := Success(Obj([Entry("conv", conv), Entry("scale", scale)]));
  }

  /** `extractResidualLayerParams(prefix)`: the conv layers `<prefix>/conv1`, then `<prefix>/conv2`. */
  method LoadResidualLayerParams(l: WeightMapLoader, prefix: string) returns (r: Result<Node>)
    modifies l
    ensures l.released == old(l.released)
    ensures r.Success? <==> Available(l.weightMap, Some(prefix), ResidualLayout())
    ensures r.Failure? ==> r.error.UnexpectedTensor?
    ensures r.Success? ==>
      && l.paramMappings == old(l.paramMappings) + LayoutPaths(Some(prefix), ResidualLayout())
      && Conforms(r.value, ResidualLayout())
      && FromMap(l.weightMap, Some(prefix), r.value)
  {
    ghost var before := l.paramMappings;
    Available2(l.weightMap, Some(prefix), Member("conv1", ConvLayerLayout()), Member("conv2", ConvLayerLayout()));
    var conv1 :- LoadConvLayerParams(l, Under(prefix, "conv1"));
    var conv2 :- LoadConvLayerParams(l, Under(prefix, "conv2"));
    Group2(Some(prefix), Member("conv1", ConvLayerLayout()), Member("conv2", ConvLayerLayout()));
    AppendAssoc(before, LayoutPaths(Some(Under(prefix, "conv1")), ConvLayerLayout()), LayoutPaths(Some(Under(prefix, "conv2")), ConvLayerLayout()));
    r := Success(Obj([Entry("conv1", conv1), Entry("conv2", conv2)]));
  }

  /** One residual block of `extractParamsFromWeigthMap`, appended to the object built so far. */
  method LoadResidual(l: WeightMapLoader, es: seq<Entry>, ghost ms: seq<Member>, key: string) returns (r: Result<seq<Entry>>)
    requires Gathered(l, es, ms)
    modifies l
    ensures l.released == old(l.released)
    ensures r.Success? <==> Available(l.weightMap, Some(key), ResidualLayout())
    ensures r.Failure? ==> r.error.UnexpectedTensor?
    ensures r.Success? ==> |r.value| == |es| + 1 && Gathered(l, r.value, ms + [Residual(key)])
  {
    var block :- LoadResidualLayerParams(l, key);
    AppendEntry(None, es, ms, Entry(key, block), Residual(key));
    FromMapAppend(l.weightMap, None, es, Entry(key, block));
    r := Success(es + [Entry(key, block)]);
  }

  /** `conv32_down`, the first conv layer. */
  method LoadConv32Down(l: WeightMapLoader) returns (r: Result<seq<Entry>>)
    requires Gathered(l, [], [])
    modifies l
    ensures l.released == old(l.released)
    ensures r.Success? <==> Available(l.weightMap, Some("conv32_down"), ConvLayerLayout())
    ensures r.Failure? ==> r.error.UnexpectedTensor?
    ensures r.Success? ==> |r.value| == 1 && Gathered(l, r.value, [Member("conv32_down", ConvLayerLayout())])
  {
    var conv32_down :- LoadConvLayerParams(l, "conv32_down");
    AppendEntry(None, [], [], Entry("conv32_down", conv32_down), Member("conv32_down", ConvLayerLayout()));
    FromMapAppend(l.weightMap, None, [], Entry("conv32_down", conv32_down));
    r := Success([Entry("conv32_down", conv32_down)]);
  }

  /** The residual blocks `conv32_1` to `conv32_3`. */
  method LoadConv32Blocks(l: WeightMapLoader, es: seq<Entry>, ghost ms: seq<Member>) returns (r: Result<seq<Entry>>)
    requires Gathered(l, es, ms)
    modifies l
    ensures l.released == old(l.released)
    ensures r.Success? <==> Available(l.weightMap, None, Group(Conv32Residuals()))
    ensures r.Failure? ==> r.error.UnexpectedTensor?
    ensures r.Success? ==> |r.value| == |es| + 3 && Gathered(l, r.value, ms + Conv32Residuals())
  {
    var es0 := es;
    ghost var ms0 := ms;
    Available3(l.weightMap, None, Residual("conv32_1"), Residual("conv32_2"), Residual("conv32_3"));
    es0 :- LoadResidual(l, es0, ms0, "conv32_1");
    ms0 := ms0 + [Residual("conv32_1")];
    es0 :- LoadResidual(l, es0, ms0, "conv32_2");
    ms0 := ms0 + [Residual("conv32_2")];
    es0 :- LoadResidual(l, es0, ms0, "conv32_3");
    ms0 := ms0 + [Residual("conv32_3")];
    assert ms0 == ms + Conv32Residuals();
    r := Success(es0);
  }

  /** `conv64_down` and the residual blocks `conv64_1` to `conv64_3`. */
  method LoadConv64Blocks(l: WeightMapLoader, es: seq<Entry>, ghost ms: seq<Member>) returns (r: Result<seq<Entry>>)
    requires Gathered(l, es, ms)
    modifies l
    ensures l.released == old(l.released)
    ensures r.Success? <==> Available(l.weightMap, None, Group(Conv64Residuals()))
    ensures r.Failure? ==> r.error.UnexpectedTensor?
    ensures r.Success? ==> |r.value| == |es| + 4 && Gathered(l, r.value, ms + Conv64Residuals())
  {
    var es0 := es;
    ghost var ms0 := ms;
    Available4(l.weightMap, None, Residual("conv64_down"), Residual("conv64_1"), Residual("conv64_2"), Residual("conv64_3"));
    es0 :- LoadResidual(l, es0, ms0, "conv64_down");
    ms0 := ms0 + [Residual("conv64_down")];
    es0 :- LoadResidual(l, es0, ms0, "conv64_1");
    ms0 := ms0 + [Residual("conv64_1")];
    es0 :- LoadResidual(l, es0, ms0, "conv64_2");
    ms0 := ms0 + [Residual("conv64_2")];
    es0 :- LoadResidual(l, es0, ms0, "conv64_3");
    ms0 := ms0 + [Residual("conv64_3")];
    assert ms0 == ms + Conv64Residuals();
    r := Success(es0);
  }

  /** `conv128_down`, `conv128_1` and `conv128_2`. */
  method LoadConv128Blocks(l: WeightMapLoader, es: seq<Entry>, ghost ms: seq<Member>) returns (r: Result<seq<Entry>>)
    requires Gathered(l, es, ms)
    modifies l
    ensures l.released == old(l.released)
    ensures r.Success? <==> Available(l.weightMap, None, Group(Conv128Residuals()))
    ensures r.Failure? ==> r.error.UnexpectedTensor?
    ensures r.Success? ==> |r.value| == |es| + 3 && Gathered(l, r.value, ms + Conv128Residuals())
  {
    var es0 := es;
    ghost var ms0 := ms;
    Available3(l.weightMap, None, Residual("conv128_down"), Residual("conv128_1"), Residual("conv128_2"));
    es0 :- LoadResidual(l, es0, ms0, "conv128_down");
    ms0 := ms0 + [Residual("conv128_down")];
    es0 :- LoadResidual(l, es0, ms0, "conv128_1");
    ms0 := ms0 + [Residual("conv128_1")];
    es0 :- LoadResidual(l, es0, ms0, "conv128_2");
    ms0 := ms0 + [Residual("conv128_2")];
    assert ms0 == ms + Conv128Residuals();
    r := Success(es0);
  }

  /** `conv256_down`, `conv256_1`, `conv256_2` and `conv256_down_out`. */
  method LoadConv256Blocks(l: WeightMapLoader, es: seq<Entry>, ghost ms: seq<Member>) returns (r: Result<seq<Entry>>)
    requires Gathered(l, es, ms)
    modifies l
    ensures l.released == old(l.released)
    ensures r.Success? <==> Available(l.weightMap, None, Group(Conv256Residuals()))
    ensures r.Failure? ==> r.error.UnexpectedTensor?
    ensures r.Success? ==> |r.value| == |es| + 4 && Gathered(l, r.value, ms + Conv256Residuals())
  {
    var es0 := es;
    ghost var ms0 := ms;
    Available4(l.weightMap, None, Residual("conv256_down"), Residual("conv256_1"), Residual("conv256_2"), Residual("conv256_down_out"));
    es0 :- LoadResidual(l, es0, ms0, "conv256_down");
    ms0 := ms0 + [Residual("conv256_down")];
    es0 :- LoadResidual(l, es0, ms0, "conv256_1");
    ms0 := ms0 + [Residual("conv256_1")];
    es0 :- LoadResidual(l, es0, ms0, "conv256_2");
    ms0 := ms0 + [Residual("conv256_2")];
    es0 :- LoadResidual(l, es0, ms0, "conv256_down_out");
    ms0 := ms0 + [Residual("conv256_down_out")];
    assert ms0 == ms + Conv256Residuals();
    r := Success(es0);
  }

  /** `fc`: read from the map and recorded before its rank is checked; anything but a rank-2 tensor throws. */
  method LoadFc(l: WeightMapLoader, es: seq<Entry>, ghost ms: seq<Member>) returns (r: Result<seq<Entry>>)
    requires Gathered(l, es, ms)
    modifies l
    ensures l.released == old(l.released)
    ensures r.Success? <==> HasTensor(l.weightMap, "fc", 2)
    ensures r.Failure? ==> r.error == UnexpectedTensor("fc", 2)
    ensures r.Success? ==>
      && r.value == es + [Entry("fc", Leaf(l.weightMap["fc"]))]
      && Gathered(l, r.value, ms + [Member("fc", Rank(2))])
  {
    l.Push("fc");
    if !HasTensor(l.weightMap, "fc", 2) {
      return Failure(UnexpectedTensor("fc", 2));
    }
    var fc := Entry("fc", Leaf(l.weightMap["fc"]));
    AppendEntry(None, es, ms, fc, Member("fc", Rank(2)));
    FromMapAppend(l.weightMap, None, es, fc);
    r := Success(es + [fc]);
  }

  /** The sixteen lookups of `extractParamsFromWeigthMap`, in order, on a fresh loader. */
  method LoadAll(l: WeightMapLoader) returns (r: Result<seq<Entry>>)
    requires Gathered(l, [], [])
    modifies l
    ensures l.released == old(l.released)
    ensures r.Success? <==> Available(l.weightMap, None, RecognitionLayout())
    ensures r.Failure? ==> r.error.UnexpectedTensor?
    ensures r.Success? ==> Gathered(l, r.value, RecognitionMembers())
  {
    RecognitionAvailable(l.weightMap);
    RecognitionMembersByStage();
    var es :- LoadConv32Down(l);
    ghost var ms := [Member("conv32_down", ConvLayerLayout())];
    es :- LoadConv32Blocks(l, es, ms);
    ms := ms + Conv32Residuals();
    es :- LoadConv64Blocks(l, es, ms);
    ms := ms + Conv64Residuals();
    es :- LoadConv128Blocks(l, es, ms);
    ms := ms + Conv128Residuals();
    es :- LoadConv256Blocks(l, es, ms);
    ms := ms + Conv256Residuals();
    es :- LoadFc(l, es, ms);
    r := Success(es);
  }

  /** `extractParamsFromWeigthMap(weightMap)`: succeeds exactly when every tensor of the recognition
      layout is in the map with its rank. The parameters are then the map's own tensors, in the
      layout's order, and `released` is every entry of the map no recorded path claims; when the
      extraction throws, nothing is released. */
  method ExtractParamsFromWeightMap(weightMap: map<string, Tensor>) returns (r: Result<Extraction>, released: set<string>)
    ensures r.Success? <==> Available(weightMap, None, RecognitionLayout())
    ensures r.Failure? ==> r.error.UnexpectedTensor? && released == {}
    ensures r.Success? ==>
      && Conforms(r.value.params, RecognitionLayout())
      && FromMap(weightMap, None, r.value.params)
      && r.value.paramMappings == LayoutPaths(None, RecognitionLayout())
      && released == Unclaimed(weightMap, r.value.paramMappings)
  {
    var l := new WeightMapLoader(weightMap);
    released := {};
    var es :- LoadAll(l);
    l.DisposeUnused();
    r, released := Success(Extraction(Obj(es), l.paramMappings)), l.released;
  }
}
