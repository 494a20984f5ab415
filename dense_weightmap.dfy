/** The weight-map dense-block builders of `loadParamsFactory(weightMap, paramMappings)` and the
    two feature-extractor assemblies built from them. */
module DenseWeightMap {
  import opened Common
  import opened Params
  import opened Sources
  import opened Layers
  import opened DenseLayers

  datatype Extraction = Extraction(params: Node, paramMappings: seq<string>)

  /** `isFirstLayer ? extractConvParams(p) : extractSeparableConvParams(p)` */
  method LoadConv0(l: WeightMapLoader, prefix: string, isFirstLayer: bool) returns (r: Result<Node>)
    modifies l
    ensures l.released == old(l.released)
    ensures r.Success? <==> Available(l.weightMap, Some(prefix), Conv0Layout(isFirstLayer))
    ensures r.Failure? ==> r.error.UnexpectedTensor?
    ensures r.Success? ==>
      && l.paramMappings == old(l.paramMappings) + LayoutPaths(Some(prefix), Conv0Layout(isFirstLayer))
      && Conforms(r.value, Conv0Layout(isFirstLayer))
      && FromMap(l.weightMap, Some(prefix), r.value)
  {
    if isFirstLayer {
      r := LoadConvParams(l, prefix);
    } else {
      r := LoadSeparableConvParams(l, prefix);
    }
  }

  /** `extractDenseBlock3Params(prefix, isFirstLayer = false)`: `<prefix>/conv0` (plain in the
      first layer, separable otherwise), then the separable `<prefix>/conv1` and `<prefix>/conv2`. */
  method LoadDenseBlock3Params(l: WeightMapLoader, prefix: string, isFirstLayer: bool := false) returns (r: Result<Node>)
    modifies l
    ensures l.released == old(l.released)
    ensures r.Success? <==> Available(l.weightMap, Some(prefix), DenseBlock3Layout(isFirstLayer))
    ensures r.Failure? ==> r.error.UnexpectedTensor?
    ensures r.Success? ==>
      && l.paramMappings == old(l.paramMappings) + LayoutPaths(Some(prefix), DenseBlock3Layout(isFirstLayer))
      && Conforms(r.value, DenseBlock3Layout(isFirstLayer))
      && FromMap(l.weightMap, Some(prefix), r.value)
  {
    ghost var p0 := l.paramMappings;
    var m0, m1, m2 := Member("conv0", Conv0Layout(isFirstLayer)), Member("conv1", SeparableLayout()), Member("conv2", SeparableLayout());
    Available3(l.weightMap, Some(prefix), m0, m1, m2);
    var conv0 :- LoadConv0(l, Under(prefix, "conv0"), isFirstLayer);
    var conv1 :- LoadSeparableConvParams(l, Under(prefix, "conv1"));
    var conv2 :- LoadSeparableConvParams(l, Under(prefix, "conv2"));
    var e0, e1, e2 := Entry("conv0", conv0), Entry("conv1", conv1), Entry("conv2", conv2);
    DenseBlock3Paths(prefix, isFirstLayer);
    AppendAssoc3(p0, LayoutPaths(Some(Under(prefix, "conv0")), Conv0Layout(isFirstLayer)),
      LayoutPaths(Some(Under(prefix, "conv1")), SeparableLayout()), LayoutPaths(Some(Under(prefix, "conv2")), SeparableLayout()));
    Conforms3(e0, e1, e2, m0, m1, m2);
    FromMap3(l.weightMap, Some(prefix), e0, e1, e2);
    r := Success(Obj([e0, e1, e2]));
  }

  /** `extractDenseBlock4Params(prefix, isFirstLayer = false)`: `<prefix>/conv0` as in the block of
      three, then the separable `<prefix>/conv1`, `<prefix>/conv2` and `<prefix>/conv3`. */
  method LoadDenseBlock4Params(l: WeightMapLoader, prefix: string, isFirstLayer: bool := false) returns (r: Result<Node>)
    modifies l
    ensures l.released == old(l.released)
    ensures r.Success? <==> Available(l.weightMap, Some(prefix), DenseBlock4Layout(isFirstLayer))
    ensures r.Failure? ==> r.error.UnexpectedTensor?
    ensures r.Success? ==>
      && l.paramMappings == old(l.paramMappings) + LayoutPaths(Some(prefix), DenseBlock4Layout(isFirstLayer))
      && Conforms(r.value, DenseBlock4Layout(isFirstLayer))
      && FromMap(l.weightMap, Some(prefix), r.value)
  {
    ghost var p0 := l.paramMappings;
    var m0, m1, m2, m3 := Member("conv0", Conv0Layout(isFirstLayer)), Member("conv1", SeparableLayout()),
      Member("conv2", SeparableLayout()), Member("conv3", SeparableLayout());
    assert DenseBlock4Layout(isFirstLayer) == Group([m0, m1, m2, m3]);
    Available4(l.weightMap, Some(prefix), m0, m1, m2, m3);
    var conv0 :- LoadConv0(l, Under(prefix, "conv0"), isFirstLayer);
    var conv1 :- LoadSeparableConvParams(l, Under(prefix, "conv1"));
    var conv2 :- LoadSeparableConvParams(l, Under(prefix, "conv2"));
    var conv3 :- LoadSeparableConvParams(l, Under(prefix, "conv3"));
    var e0, e1, e2, e3 := Entry("conv0", conv0), Entry("conv1", conv1), Entry("conv2", conv2), Entry("conv3", conv3);
    Group4(Some(prefix), m0, m1, m2, m3);
    AppendAssoc3(p0, LayoutPaths(Some(Under(prefix, "conv0")), Conv0Layout(isFirstLayer)),
      LayoutPaths(Some(Under(prefix, "conv1")), SeparableLayout()), LayoutPaths(Some(Under(prefix, "conv2")), SeparableLayout()));
    AppendAssoc(p0, LayoutPaths(Some(Under(prefix, "conv0")), Conv0Layout(isFirstLayer)) +
      LayoutPaths(Some(Under(prefix, "conv1")), SeparableLayout()) + LayoutPaths(Some(Under(prefix, "conv2")), SeparableLayout()),
      LayoutPaths(Some(Under(prefix, "conv3")), SeparableLayout()));
    Conforms4(e0, e1, e2, e3, m0, m1, m2, m3);
    FromMap4(l.weightMap, Some(prefix), e0, e1, e2, e3);
    r := Success(Obj([e0, e1, e2, e3]));
  }

  /** The four blocks of the face feature extractor, put together as `{ dense0, dense1, dense2, dense3 }`. */
  lemma AssembleDense4(m: map<string, Tensor>, d0: Node, d1: Node, d2: Node, d3: Node)
    requires Conforms(d0, DenseBlock4Layout(true)) && FromMap(m, Some("dense0"), d0)
    requires Conforms(d1, DenseBlock4Layout(false)) && FromMap(m, Some("dense1"), d1)
    requires Conforms(d2, DenseBlock4Layout(false)) && FromMap(m, Some("dense2"), d2)
    requires Conforms(d3, DenseBlock4Layout(false)) && FromMap(m, Some("dense3"), d3)
    ensures Conforms(Obj([Entry("dense0", d0), Entry("dense1", d1), Entry("dense2", d2), Entry("dense3", d3)]), FeatureExtractorLayout())
    ensures FromMap(m, None, Obj([Entry("dense0", d0), Entry("dense1", d1), Entry("dense2", d2), Entry("dense3", d3)]))
    ensures [] + LayoutPaths(Some("dense0"), DenseBlock4Layout(true)) + LayoutPaths(Some("dense1"), DenseBlock4Layout(false))
      + LayoutPaths(Some("dense2"), DenseBlock4Layout(false)) + LayoutPaths(Some("dense3"), DenseBlock4Layout(false))
      == LayoutPaths(None, FeatureExtractorLayout())
  {
    var m0, m1, m2, m3 := Member("dense0", DenseBlock4Layout(true)), Member("dense1", DenseBlock4Layout(false)),
      Member("dense2", DenseBlock4Layout(false)), Member("dense3", DenseBlock4Layout(false));
    var e0, e1, e2, e3 := Entry("dense0", d0), Entry("dense1", d1), Entry("dense2", d2), Entry("dense3", d3);
    var p0, p1, p2, p3 := LayoutPaths(Some("dense0"), DenseBlock4Layout(true)), LayoutPaths(Some("dense1"), DenseBlock4Layout(false)),
      LayoutPaths(Some("dense2"), DenseBlock4Layout(false)), LayoutPaths(Some("dense3"), DenseBlock4Layout(false));
    Group4(None, m0, m1, m2, m3);
    AppendAssoc3([], p0, p1, p2);
    AppendAssoc([], p0 + p1 + p2, p3);
    EmptyConcat(p0 + p1 + p2 + p3);
    Conforms4(e0, e1, e2, e3, m0, m1, m2, m3);
    FromMap4(m, None, e0, e1, e2, e3);
  }

  /** The three blocks of the tiny face feature extractor, put together as `{ dense0, dense1, dense2 }`. */
  lemma AssembleDense3(m: map<string, Tensor>, d0: Node, d1: Node, d2: Node)
    requires Conforms(d0, DenseBlock3Layout(true)) && FromMap(m, Some("dense0"), d0)
    requires Conforms(d1, DenseBlock3Layout(false)) && FromMap(m, Some("dense1"), d1)
    requires Conforms(d2, DenseBlock3Layout(false)) && FromMap(m, Some("dense2"), d2)
    ensures Conforms(Obj([Entry("dense0", d0), Entry("dense1", d1), Entry("dense2", d2)]), TinyFeatureExtractorLayout())
    ensures FromMap(m, None, Obj([Entry("dense0", d0), Entry("dense1", d1), Entry("dense2", d2)]))
    ensures [] + LayoutPaths(Some("dense0"), DenseBlock3Layout(true)) + LayoutPaths(Some("dense1"), DenseBlock3Layout(false))
      + LayoutPaths(Some("dense2"), DenseBlock3Layout(false)) == LayoutPaths(None, TinyFeatureExtractorLayout())
  {
    var m0, m1, m2 := Member("dense0", DenseBlock3Layout(true)), Member("dense1", DenseBlock3Layout(false)),
      Member("dense2", DenseBlock3Layout(false));
    var e0, e1, e2 := Entry("dense0", d0), Entry("dense1", d1), Entry("dense2", d2);
    var p0, p1, p2 := LayoutPaths(Some("dense0"), DenseBlock3Layout(true)), LayoutPaths(Some("dense1"), DenseBlock3Layout(false)),
      LayoutPaths(Some("dense2"), DenseBlock3Layout(false));
    Group3(None, m0, m1, m2);
    AppendAssoc3([], p0, p1, p2);
    EmptyConcat(p0 + p1 + p2);
    Conforms3(e0, e1, e2, m0, m1, m2);
    FromMap3(m, None, e0, e1, e2);
  }

  /** The four block loads of the face feature extractor, on a fresh loader. */
  method LoadDense4Blocks(l: WeightMapLoader) returns (r: Result<Node>)
    requires l.paramMappings == []
    modifies l
    ensures l.released == old(l.released)
    ensures r.Success? <==> Available(l.weightMap, None, FeatureExtractorLayout())
    ensures r.Failure? ==> r.error.UnexpectedTensor?
    ensures r.Success? ==>
      && l.paramMappings == LayoutPaths(None, FeatureExtractorLayout())
      && Conforms(r.value, FeatureExtractorLayout())
      && FromMap(l.weightMap, None, r.value)
  {
    Available4(l.weightMap, None, Member("dense0", DenseBlock4Layout(true)), Member("dense1", DenseBlock4Layout(false)),
      Member("dense2", DenseBlock4Layout(false)), Member("dense3", DenseBlock4Layout(false)));
    var dense0 :- LoadDenseBlock4Params(l, "dense0", true);
    var dense1 :- LoadDenseBlock4Params(l, "dense1");
    var dense2 :- LoadDenseBlock4Params(l, "dense2");
    var dense3 :- LoadDenseBlock4Params(l, "dense3");
    AssembleDense4(l.weightMap, dense0, dense1, dense2, dense3);
    r := Success(Obj([Entry("dense0", dense0), Entry("dense1", dense1), Entry("dense2", dense2), Entry("dense3", dense3)]));
  }

  /** The three block loads of the tiny face feature extractor, on a fresh loader. */
  method LoadDense3Blocks(l: WeightMapLoader) returns (r: Result<Node>)
    requires l.paramMappings == []
    modifies l
    ensures l.released == old(l.released)
    ensures r.Success? <==> Available(l.weightMap, None, TinyFeatureExtractorLayout())
    ensures r.Failure? ==> r.error.UnexpectedTensor?
    ensures r.Success? ==>
      && l.paramMappings == LayoutPaths(None, TinyFeatureExtractorLayout())
      && Conforms(r.value, TinyFeatureExtractorLayout())
      && FromMap(l.weightMap, None, r.value)
  {
    Available3(l.weightMap, None, Member("dense0", DenseBlock3Layout(true)), Member("dense1", DenseBlock3Layout(false)),
      Member("dense2", DenseBlock3Layout(false)));
    var dense0 :- LoadDenseBlock3Params(l, "dense0", true);
    var dense1 :- LoadDenseBlock3Params(l, "dense1");
    var dense2 :- LoadDenseBlock3Params(l, "dense2");
    AssembleDense3(l.weightMap, dense0, dense1, dense2);
    r := Success(Obj([Entry("dense0", dense0), Entry("dense1", dense1), Entry("dense2", dense2)]));
  }

  /** `extractParamsFromWeigthMap(weightMap)` of the face feature extractor: `dense0` (first
      layer), `dense1`, `dense2`, `dense3`, each a block of four; the unclaimed entries are
      released only once all four have loaded. */
  method ExtractParamsFromWeightMap(weightMap: map<string, Tensor>) returns (r: Result<Extraction>, released: set<string>)
    ensures r.Success? <==> Available(weightMap, None, FeatureExtractorLayout())
    ensures r.Failure? ==> r.error.UnexpectedTensor? && released == {}
    ensures r.Success? ==>
      && Conforms(r.value.params, FeatureExtractorLayout())
      && FromMap(weightMap, None, r.value.params)
      && r.value.paramMappings == LayoutPaths(None, FeatureExtractorLayout())
      && released == Unclaimed(weightMap, r.value.paramMappings)
  {
    var l := new WeightMapLoader(weightMap);
    released := {};
    var params :- LoadDense4Blocks(l);
    l.DisposeUnused();
    r, released := Success(Extraction(params, l.paramMappings)), l.released;
  }

  /** `extractParamsFromWeigthMapTiny(weightMap)` of the tiny face feature extractor: `dense0`
      (first layer), `dense1`, `dense2`, each a block of three; the unclaimed entries are released
      only once all three have loaded. */
  method ExtractParamsFromWeightMapTiny(weightMap: map<string, Tensor>) returns (r: Result<Extraction>, released: set<string>)
    ensures r.Success? <==> Available(weightMap, None, TinyFeatureExtractorLayout())
    ensures r.Failure? ==> r.error.UnexpectedTensor? && released == {}
    ensures r.Success? ==>
      && Conforms(r.value.params, TinyFeatureExtractorLayout())
      && FromMap(weightMap, None, r.value.params)
      && r.value.paramMappings == LayoutPaths(None, TinyFeatureExtractorLayout())
      && released == Unclaimed(weightMap, r.value.paramMappings)
  {
    var l := new WeightMapLoader(weightMap);
    released := {};
    var params :- LoadDense3Blocks(l);
    l.DisposeUnused();
    r, released := Success(Extraction(params, l.paramMappings)), l.released;
  }
}
