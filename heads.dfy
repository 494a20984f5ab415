/** The fully connected classifier heads: the single `fc` layer of a face processor (landmark and
    expression nets) and the `fc.age` / `fc.gender` pair of the age and gender net, each read from
    a flat buffer or from a weight map. */
module FaceProcessorParams {
  import opened Common
  import opened Params
  import opened Sources
  import opened Layers

  datatype Extraction = Extraction(params: Node, paramMappings: seq<string>)

  /** `params` of the head: `{ fc: { weights, bias } }`. */
  function FaceProcessorLayout(): Layout {
    Group([Member("fc", FcLayout())])
  }

  lemma FaceProcessorPaths()
    ensures LayoutPaths(None, FaceProcessorLayout()) == ["fc/weights", "fc/bias"]
  {
    FcPaths("fc");
    assert MembersPaths(None, [Member("fc", FcLayout())]) == MembersPaths(None, []) + LayoutPaths(Some("fc"), FcLayout());
    assert Under("fc", "weights") == "fc/weights" && Under("fc", "bias") == "fc/bias";
  }

  /** A weight map holds the head exactly when it has `fc/weights` at rank 2 and `fc/bias` at rank 1. */
  lemma FaceProcessorAvailable(m: map<string, Tensor>)
    ensures Available(m, None, FaceProcessorLayout()) <==> HasTensor(m, "fc/weights", 2) && HasTensor(m, "fc/bias", 1)
  {
    Available1(m, None, Member("fc", FcLayout()));
    Available2(m, Some("fc"), Member("weights", Rank(2)), Member("bias", Rank(1)));
    assert Under("fc", "weights") == "fc/weights" && Under("fc", "bias") == "fc/bias";
  }

  /** `extractParams(weights, channelsIn, channelsOut)`: one fc layer `channelsIn`→`channelsOut`
      under `fc`, on a fresh `paramMappings`. It succeeds exactly when the buffer holds the layer's
      `channelsIn·channelsOut + channelsOut` values; a longer buffer throws with the count left over.
      The weights are the first `channelsIn·channelsOut` values, the bias the rest. */
  method ExtractParams(weights: seq<real>, channelsIn: nat, channelsOut: nat) returns (r: Result<Extraction>)
    ensures r.Success? <==> |weights| == FcFootprint(channelsIn, channelsOut)
    ensures |weights| < FcFootprint(channelsIn, channelsOut) ==> r.Failure? && r.error.WeightsExhausted?
    ensures |weights| > FcFootprint(channelsIn, channelsOut) ==>
      r == Failure(WeightsRemaining(|weights| - FcFootprint(channelsIn, channelsOut)))
    ensures r.Success? ==>
      && Conforms(r.value.params, FaceProcessorLayout())
      && r.value.paramMappings == LayoutPaths(None, FaceProcessorLayout())
      && Tensors(r.value.params) ==
        [Tensor([channelsIn, channelsOut], weights[..channelsIn * channelsOut]), Tensor([channelsOut], weights[channelsIn * channelsOut..])]
  {
    var c := new WeightCursor(weights);
    var fc :- ExtractFcParams(c, channelsIn, channelsOut, "fc");
    if c.Remaining() != 0 {
      return Failure(WeightsRemaining(c.Remaining()));
    }
    FcPaths("fc");
    FaceProcessorPaths();
    Obj1(None, Entry("fc", fc));
    Conforms1(Entry("fc", fc), Member("fc", FcLayout()));
    CutFromUnique(Tensors(fc), weights, 0, FcShapes(channelsIn, channelsOut));
    FcTensors(weights, 0, channelsIn, channelsOut);
    assert weights[0..channelsIn * channelsOut] == weights[..channelsIn * channelsOut];
    assert weights[channelsIn * channelsOut..c.pos] == weights[channelsIn * channelsOut..];
    r := Success(Extraction(Obj([Entry("fc", fc)]), c.paramMappings));
  }

  /** `extractParamsFromWeigthMap(weightMap)`: `fc/weights` (rank 2), then `fc/bias` (rank 1), then
      the unclaimed entries are released; when a lookup throws, nothing is released. */
  method ExtractParamsFromWeightMap(weightMap: map<string, Tensor>) returns (r: Result<Extraction>, released: set<string>)
    ensures r.Success? <==> Available(weightMap, None, FaceProcessorLayout())
    ensures r.Failure? ==> r.error.UnexpectedTensor? && released == {}
    ensures r.Success? ==>
      && Conforms(r.value.params, FaceProcessorLayout())
      && FromMap(weightMap, None, r.value.params)
      && r.value.paramMappings == LayoutPaths(None, FaceProcessorLayout())
      && released == Unclaimed(weightMap, r.value.paramMappings)
  {
    var l := new WeightMapLoader(weightMap);
    released := {};
    Available1(weightMap, None, Member("fc", FcLayout()));
    var fc :- LoadFcParams(l, "fc");
    FaceProcessorPaths();
    FcPaths("fc");
    Conforms1(Entry("fc", fc), Member("fc", FcLayout()));
    FromMap1(weightMap, None, Entry("fc", fc));
    l.DisposeUnused();
    r, released := Success(Extraction(Obj([Entry("fc", fc)]), l.paramMappings)), l.released;
  }
}

module AgeGenderParams {
  import opened Common
  import opened Params
  import opened Sources
  import opened Layers

  datatype Extraction = Extraction(params: Node, paramMappings: seq<string>)

  /** `params` of the head: `{ fc: { age: { weights, bias }, gender: { weights, bias } } }`. */
  function AgeGenderLayout(): Layout {
    Group([Member("fc", Group([Member("age", FcLayout()), Member("gender", FcLayout())]))])
  }

  /** Age 512→1, then gender 512→2. */
  const AgeGenderFootprint: nat := FcFootprint(512, 1) + FcFootprint(512, 2)

  lemma AgeGenderFootprintValue()
    ensures AgeGenderFootprint == 1539 && FcFootprint(512, 1) == 513
  {
  }

  lemma AgeGenderNames()
    ensures Under("fc", "age") == "fc/age" && Under("fc", "gender") == "fc/gender"
    ensures Under("fc/age", "weights") == "fc/age/weights" && Under("fc/age", "bias") == "fc/age/bias"
    ensures Under("fc/gender", "weights") == "fc/gender/weights" && Under("fc/gender", "bias") == "fc/gender/bias"
  {
  }

  lemma AgeGenderPaths()
    ensures LayoutPaths(None, AgeGenderLayout()) == ["fc/age/weights", "fc/age/bias", "fc/gender/weights", "fc/gender/bias"]
  {
    var fc := Group([Member("age", FcLayout()), Member("gender", FcLayout())]);
    assert MembersPaths(None, [Member("fc", fc)]) == MembersPaths(None, []) + LayoutPaths(Some("fc"), fc);
    Group2(Some("fc"), Member("age", FcLayout()), Member("gender", FcLayout()));
    FcPaths(Under("fc", "age"));
    FcPaths(Under("fc", "gender"));
    AgeGenderNames();
  }

  /** A weight map holds both heads exactly when it has the weights (rank 2) and the bias (rank 1)
      of `fc/age` and of `fc/gender`. */
  lemma AgeGenderAvailable(m: map<string, Tensor>)
    ensures Available(m, None, AgeGenderLayout()) <==>
      && HasTensor(m, "fc/age/weights", 2) && HasTensor(m, "fc/age/bias", 1)
      && HasTensor(m, "fc/gender/weights", 2) && HasTensor(m, "fc/gender/bias", 1)
  {
    var ma, mg := Member("age", FcLayout()), Member("gender", FcLayout());
    Available1(m, None, Member("fc", Group([ma, mg])));
    Available2(m, Some("fc"), ma, mg);
    AgeGenderNames();
    FcAvailable(m, "fc/age");
    FcAvailable(m, "fc/gender");
  }

  /** The age head cut from the first 513 values and the gender head from the next 1026 are the
      age weights `[512,1]` and bias `[1]`, then the gender weights `[512,2]` and bias `[2]`. */
  lemma AgeGenderTensors(w: seq<real>, age: Node, gender: Node)
    requires |w| == AgeGenderFootprint
    requires CutFrom(Tensors(age), w, 0, FcShapes(512, 1)) && CutFrom(Tensors(gender), w, 513, FcShapes(512, 2))
    ensures Tensors(age) + Tensors(gender) ==
      [Tensor([512, 1], w[..512]), Tensor([1], w[512..513]), Tensor([512, 2], w[513..1537]), Tensor([2], w[1537..])]
  {
    CutFromUnique(Tensors(age), w, 0, FcShapes(512, 1));
    FcTensors(w, 0, 512, 1);
    CutFromUnique(Tensors(gender), w, 513, FcShapes(512, 2));
    FcTensors(w, 513, 512, 2);
    assert w[0..512] == w[..512];
    assert w[1537..1539] == w[1537..];
  }

  /** `extractParams(weights)`: `fc/age` 512→1, then `fc/gender` 512→2, on a fresh `paramMappings`.
      It succeeds exactly when the buffer holds 1539 values; a longer buffer throws with the count
      left over. The age weights are the first 512 values, its bias the next one, then come the
      gender weights (1024 values) and its two biases. */
  method ExtractParams(weights: seq<real>) returns (r: Result<Extraction>)
    ensures r.Success? <==> |weights| == AgeGenderFootprint
    ensures |weights| < AgeGenderFootprint ==> r.Failure? && r.error.WeightsExhausted?
    ensures |weights| > AgeGenderFootprint ==> r == Failure(WeightsRemaining(|weights| - AgeGenderFootprint))
    ensures r.Success? ==>
      && Conforms(r.value.params, AgeGenderLayout())
      && r.value.paramMappings == LayoutPaths(None, AgeGenderLayout())
      && Data(r.value.params) == weights
      && Tensors(r.value.params) ==
        [Tensor([512, 1], weights[..512]), Tensor([1], weights[512..513]),
         Tensor([512, 2], weights[513..1537]), Tensor([2], weights[1537..])]
  {
    var c := new WeightCursor(weights);
    var age :- ExtractFcParams(c, 512, 1, Under("fc", "age"));
    var gender :- ExtractFcParams(c, 512, 2, Under("fc", "gender"));
    if c.Remaining() != 0 {
      return Failure(WeightsRemaining(c.Remaining()));
    }
    var ea, eg := Entry("age", age), Entry("gender", gender);
    var fc := Obj([ea, eg]);
    Obj2(None, ea, eg);
    Obj1(None, Entry("fc", fc));
    Conforms2(ea, eg, Member("age", FcLayout()), Member("gender", FcLayout()));
    Conforms1(Entry("fc", fc), Member("fc", Group([Member("age", FcLayout()), Member("gender", FcLayout())])));
    AgeGenderPaths();
    FcPaths(Under("fc", "age"));
    FcPaths(Under("fc", "gender"));
    SliceConcat(weights, 0, 513, c.pos);
    SliceAll(weights);
    AgeGenderTensors(weights, age, gender);
    r := Success(Extraction(Obj([Entry("fc", fc)]), c.paramMappings));
  }

  /** `extractParamsFromWeigthMap(weightMap)`: `fc/age/weights`, `fc/age/bias`, `fc/gender/weights`,
      `fc/gender/bias`, then the unclaimed entries are released; when a lookup throws, nothing is
      released. */
  method ExtractParamsFromWeightMap(weightMap: map<string, Tensor>) returns (r: Result<Extraction>, released: set<string>)
    ensures r.Success? <==> Available(weightMap, None, AgeGenderLayout())
    ensures r.Failure? ==> r.error.UnexpectedTensor? && released == {}
    ensures r.Success? ==>
      && Conforms(r.value.params, AgeGenderLayout())
      && FromMap(weightMap, None, r.value.params)
      && r.value.paramMappings == LayoutPaths(None, AgeGenderLayout())
      && released == Unclaimed(weightMap, r.value.paramMappings)
  {
    var l := new WeightMapLoader(weightMap);
    released := {};
    var ma, mg := Member("age", FcLayout()), Member("gender", FcLayout());
    Available1(weightMap, None, Member("fc", Group([ma, mg])));
    Available2(weightMap, Some("fc"), ma, mg);
    var age :- LoadFcParams(l, Under("fc", "age"));
    var gender :- LoadFcParams(l, Under("fc", "gender"));
    var ea, eg := Entry("age", age), Entry("gender", gender);
    var fc := Obj([ea, eg]);
    Conforms2(ea, eg, ma, mg);
    Conforms1(Entry("fc", fc), Member("fc", Group([ma, mg])));
    FromMap2(weightMap, Some("fc"), ea, eg);
    FromMap1(weightMap, None, Entry("fc", fc));
    AgeGenderPaths();
    FcPaths(Under("fc", "age"));
    FcPaths(Under("fc", "gender"));
    l.DisposeUnused();
    r, released := Success(Extraction(Obj([Entry("fc", fc)]), l.paramMappings)), l.released;
  }
}
