/** `FaceProcessor`: a net made of a nested feature extractor and one fully connected classifier
    `fc`, the base of the 68-point landmark nets and of the expression net. */
module FaceProcessorNet {
  import opened Common
  import opened Params
  import opened Layers
  import opened Sources
  import opened Networks
  import opened WeightMapSplit
  import FaceProcessorParams

  /** The subclasses, which differ in their name and classifier channels. */
  datatype Kind = Landmark68 | Landmark68Tiny | Expression

  /** The `_name` each subclass passes to `super`. */
  function NetName(kind: Kind): string {
    match kind
    case Landmark68 => "FaceLandmark68Net"
    case Landmark68Tiny => "FaceLandmark68TinyNet"
    case Expression => "FaceExpressionNet"
  }

  /** `getClassifierChannelsIn()` */
  function ChannelsIn(kind: Kind): nat {
    match kind
    case Landmark68 => 256
    case Landmark68Tiny => 128
    case Expression => 256
  }

  /** `getClassifierChannelsOut()`: the landmark nets output two coordinates for each of 68 points,
      the expression net one probability for each of 7 expressions. */
  function ChannelsOut(kind: Kind): nat {
    match kind
    case Landmark68 => 2 * 68
    case Landmark68Tiny => 2 * 68
    case Expression => 7
  }

  /** `(cOut * cIn) + cOut` */
  function ClassifierWeightSize(kind: Kind): nat {
    ChannelsOut(kind) * ChannelsIn(kind) + ChannelsOut(kind)
  }

  /** The classifier sizes of the three nets; they are the sizes of their fc layers. */
  lemma ClassifierWeightSizes()
    ensures ClassifierWeightSize(Landmark68) == 34952
    ensures ClassifierWeightSize(Landmark68Tiny) == 17544
    ensures ClassifierWeightSize(Expression) == 1799
    ensures forall kind :: ClassifierWeightSize(kind) == FcFootprint(ChannelsIn(kind), ChannelsOut(kind))
  {
  }

  class FaceProcessor {
    const kind: Kind
    var params: Option<Node>          // `_params`; None until loaded
    var paramMappings: seq<string>    // `_paramMappings`
    var events: seq<Event>            // the calls made on the feature extractor and the base class

    constructor(kind: Kind)
      ensures this.kind == kind && params == None && paramMappings == [] && events == []
    {
      this.kind := kind;
      params := None;
      paramMappings := [];
      events := [];
    }

    /** `runNet(input)`: inference needs loaded parameters and throws otherwise. The forward pass
        itself is tensor arithmetic; what the model returns is the parameter tree it runs with. */
    method RunNet() returns (r: Result<Node>)
      ensures r.Failure? <==> params.None?
      ensures r.Failure? ==> r.error == NotLoaded(NetName(kind))
      ensures r.Success? ==> params == Some(r.value)
    {
      if params.None? {
        return Failure(NotLoaded(NetName(kind)));
      }
      r := Success(params.value);
    }

    /** `extractClassifierParams(weights)`: the fc head with this net's channels. */
    method ExtractClassifierParams(weights: seq<real>) returns (r: Result<FaceProcessorParams.Extraction>)
      ensures r.Success? <==> |weights| == ClassifierWeightSize(kind)
      ensures |weights| < ClassifierWeightSize(kind) ==> r.Failure? && r.error.WeightsExhausted?
      ensures |weights| > ClassifierWeightSize(kind) ==> r == Failure(WeightsRemaining(|weights| - ClassifierWeightSize(kind)))
      ensures r.Success? ==>
        var k := ChannelsIn(kind) * ChannelsOut(kind);
        && Conforms(r.value.params, FaceProcessorParams.FaceProcessorLayout())
        && r.value.paramMappings == ["fc/weights", "fc/bias"]
        && Tensors(r.value.params) ==
          [Tensor([ChannelsIn(kind), ChannelsOut(kind)], weights[..k]), Tensor([ChannelsOut(kind)], weights[k..])]
    {
      ClassifierWeightSizes();
      FaceProcessorParams.FaceProcessorPaths();
      r := FaceProcessorParams.ExtractParams(weights, ChannelsIn(kind), ChannelsOut(kind));
    }

    /** `loadClassifierParams(weights)`: replaces `_params` and `_paramMappings` with the extracted
        classifier, or throws and leaves them as they were. Nothing else changes. */
    method LoadClassifierParams(weights: seq<real>) returns (r: Result<()>)
      modifies this
      ensures events == old(events)
      ensures r.Success? <==> |weights| == ClassifierWeightSize(kind)
      ensures r.Failure? ==> params == old(params) && paramMappings == old(paramMappings)
      ensures r.Success? ==>
        var k := ChannelsIn(kind) * ChannelsOut(kind);
        && params.Some?
        && Conforms(params.value, FaceProcessorParams.FaceProcessorLayout())
        && Tensors(params.value) ==
          [Tensor([ChannelsIn(kind), ChannelsOut(kind)], weights[..k]), Tensor([ChannelsOut(kind)], weights[k..])]
        && paramMappings == ["fc/weights", "fc/bias"]
    {
      var e :- ExtractClassifierParams(weights);
      params := Some(e.params);
      paramMappings := e.paramMappings;
      r := Success(());
    }

    /** `extractParams(weights)`: the feature extractor is handed everything but the last
        `classifierWeightSize` values, then the classifier is extracted from those. What the
        extractor's own extraction throws, if anything, is `extractorError`; it aborts before the
        classifier is read. The net's own fields are not set here. */
    method ExtractParams(weights: seq<real>, extractorError: Option<Error>) returns (r: Result<FaceProcessorParams.Extraction>)
      modifies this
      ensures params == old(params) && paramMappings == old(paramMappings)
      ensures events == old(events) + [ExtractorFed(ExtractorWeights(weights, ClassifierWeightSize(kind)))]
      ensures extractorError.Some? ==> r == Failure(extractorError.value)
      ensures extractorError.None? ==>
        && (r.Success? <==> |weights| >= ClassifierWeightSize(kind))
        && (r.Failure? ==> r.error.WeightsExhausted?)
      ensures r.Success? ==>
        var cw := weights[|weights| - ClassifierWeightSize(kind)..];
        var k := ChannelsIn(kind) * ChannelsOut(kind);
        && ExtractorWeights(weights, ClassifierWeightSize(kind)) + cw == weights
        && Conforms(r.value.params, FaceProcessorParams.FaceProcessorLayout())
        && r.value.paramMappings == ["fc/weights", "fc/bias"]
        && Tensors(r.value.params) ==
          [Tensor([ChannelsIn(kind), ChannelsOut(kind)], cw[..k]), Tensor([ChannelsOut(kind)], cw[k..])]
    {
      var size := ClassifierWeightSize(kind);
      Split(weights, size);
      events := events + [ExtractorFed(ExtractorWeights(weights, size))];
      if extractorError.Some? {
        return Failure(extractorError.value);
      }
      r := ExtractClassifierParams(ClassifierWeights(weights, size));
    }

    /** `extractParamsFromWeigthMap(weightMap)`: the entries not under `fc` go to the feature
        extractor, then the classifier is read from the `fc` entries, whose unclaimed entries are
        released. What the extractor's own loading throws, if anything, is `extractorError`. */
    method ExtractParamsFromWeightMap(weightMap: map<string, Tensor>, extractorError: Option<Error>)
      returns (r: Result<FaceProcessorParams.Extraction>, released: set<string>)
      modifies this
      ensures params == old(params) && paramMappings == old(paramMappings)
      ensures events == old(events) + [ExtractorMapFed(FeatureExtractorPart(weightMap))]
      ensures extractorError.Some? ==> r == Failure(extractorError.value)
      ensures r.Failure? ==> released == {}
      ensures extractorError.None? ==>
        && (r.Success? <==> HasTensor(weightMap, "fc/weights", 2) && HasTensor(weightMap, "fc/bias", 1))
        && (r.Failure? ==> r.error.UnexpectedTensor?)
      ensures r.Success? ==>
        && Conforms(r.value.params, FaceProcessorParams.FaceProcessorLayout())
        && FromMap(weightMap, None, r.value.params)
        && r.value.paramMappings == ["fc/weights", "fc/bias"]
        && released == Unclaimed(ClassifierPart(weightMap), ["fc/weights", "fc/bias"])
    {
      released := {};
      var featureExtractorMap, classifierMap := SeparateWeightMaps(weightMap);
      events := events + [ExtractorMapFed(featureExtractorMap)];
      if extractorError.Some? {
        return Failure(extractorError.value), {};
      }
      ClassifierFromCombined(weightMap);
      FaceProcessorParams.FaceProcessorPaths();
      r, released := FaceProcessorParams.ExtractParamsFromWeightMap(classifierMap);
      if r.Success? {
        PartsPartition(weightMap);
        FromMapSubmap(classifierMap, weightMap, None, r.value.params);
      }
    }

    /** `dispose(throwOnRedispose = true)`: the feature extractor first, then the net itself, both
        with the same flag. */
    method Dispose(throwOnRedispose: bool := true)
      modifies this
      ensures params == old(params) && paramMappings == old(paramMappings)
      ensures events == old(events) + [ExtractorDisposed(throwOnRedispose), Disposed(throwOnRedispose)]
    {
      events := events + [ExtractorDisposed(throwOnRedispose)];
      events := events + [Disposed(throwOnRedispose)];
    }
  }

  /** The classifier part of a weight map holds the head exactly when the whole map does, and
      holds the whole map's tensors at the head's paths. */
  lemma ClassifierFromCombined(m: map<string, Tensor>)
    ensures Available(ClassifierPart(m), None, FaceProcessorParams.FaceProcessorLayout()) <==>
      HasTensor(m, "fc/weights", 2) && HasTensor(m, "fc/bias", 1)
    ensures "fc/weights" in m ==> "fc/weights" in ClassifierPart(m) && ClassifierPart(m)["fc/weights"] == m["fc/weights"]
    ensures "fc/bias" in m ==> "fc/bias" in ClassifierPart(m) && ClassifierPart(m)["fc/bias"] == m["fc/bias"]
  {
    FaceProcessorParams.FaceProcessorAvailable(ClassifierPart(m));
    assert StartsWith("fc/weights", "fc") && StartsWith("fc/bias", "fc");
    ClassifierPartHas(m, "fc/weights");
    ClassifierPartHas(m, "fc/bias");
  }
}
