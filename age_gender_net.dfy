/** `AgeGenderNet`: a `TinyXception` feature extractor followed by the `fc.age` and `fc.gender`
    heads, and the decision it derives from their outputs. */
module AgeGenderNetModel {
  import opened Common
  import opened Params
  import opened Sources
  import opened Networks
  import opened WeightMapSplit
  import opened XceptionLayers
  import AgeGenderParams

  /** `Gender.MALE` / `Gender.FEMALE` */
  datatype Gender = Male | Female

  function GenderName(g: Gender): string {
    match g
    case Male => "male"
    case Female => "female"
  }

  /** `{ age, gender, genderProbability }` for one face. */
  datatype AgeAndGenderPrediction = AgeAndGenderPrediction(age: real, gender: Gender, genderProbability: real)

  /** The prediction for one face from the age output and the first value of the gender output,
      the probability of `male`: male exactly when that probability exceeds one half (an even
      chance is `female`), reported with the probability of the gender it names. */
  function Predict(age: real, probMale: real): (p: AgeAndGenderPrediction)
    ensures p.age == age
    ensures p.gender == Male <==> probMale > 0.5
    ensures p.genderProbability == (if p.gender == Male then probMale else 1.0 - probMale)
  {
    var isMale := probMale > 0.5;
    AgeAndGenderPrediction(age, if isMale then Male else Female, if isMale then probMale else 1.0 - probMale)
  }

  /** For a probability, the reported gender is always the likelier one. */
  lemma PredictLikelier(age: real, probMale: real)
    requires 0.0 <= probMale <= 1.0
    ensures 0.5 <= Predict(age, probMale).genderProbability <= 1.0
  {
  }

  /** One prediction per batch item, pairing the `i`-th age with the `i`-th gender output. */
  function Predictions(ages: seq<real>, probMales: seq<real>): (ps: seq<AgeAndGenderPrediction>)
    requires |probMales| >= |ages|
    ensures |ps| == |ages|
    ensures forall i | 0 <= i < |ps| :: ps[i] == Predict(ages[i], probMales[i])
  {
    seq(|ages|, i requires 0 <= i < |ages| => Predict(ages[i], probMales[i]))
  }

  /** `predictAgeAndGender(input)` from the network outputs: the list for a batch input, its only
      item otherwise. */
  function PredictAgeAndGender(isBatchInput: bool, ages: seq<real>, probMales: seq<real>): (r: Batched<AgeAndGenderPrediction>)
    requires |probMales| >= |ages|
    requires !isBatchInput ==> |ages| >= 1
    ensures isBatchInput ==> r == Batch(Predictions(ages, probMales))
    ensures !isBatchInput ==> r == Single(Predict(ages[0], probMales[0]))
  {
    Unwrap(isBatchInput, Predictions(ages, probMales))
  }

  /** The weights of the default net: a `TinyXception` with 2 main blocks, then the 1539 classifier
      values; a buffer of that size hands the extractor exactly its own footprint. */
  lemma DefaultWeightCount(weights: seq<real>)
    requires |weights| == XceptionFootprint(2) + AgeGenderParams.AgeGenderFootprint
    ensures |weights| == 421731
    ensures |ExtractorWeights(weights, AgeGenderParams.AgeGenderFootprint)| == XceptionFootprint(2)
    ensures |ClassifierWeights(weights, AgeGenderParams.AgeGenderFootprint)| == 1539
  {
    XceptionFootprintValue(2);
    AgeGenderParams.AgeGenderFootprintValue();
    Split(weights, AgeGenderParams.AgeGenderFootprint);
  }

  /** The spans of the last 1539 values the heads cut, as spans of the whole buffer. */
  lemma ClassifierSlices(weights: seq<real>)
    requires |weights| >= 1539
    ensures var cw, k := ClassifierWeights(weights, 1539), |weights| - 1539;
      && cw[..512] == weights[k..k + 512] && cw[512..513] == weights[k + 512..k + 513]
      && cw[513..1537] == weights[k + 513..k + 1537] && cw[1537..] == weights[k + 1537..]
  {
    Split(weights, 1539);
  }

  class AgeGenderNet {
    const numMainBlocks: nat          // the main blocks of the `TinyXception` feature extractor
    var params: Option<Node>          // `_params`; None until loaded
    var paramMappings: seq<string>    // `_paramMappings`
    var events: seq<Event>            // the calls made on the feature extractor and the base class

    /** `new AgeGenderNet(faceFeatureExtractor = new TinyXception(2))` */
    constructor(numMainBlocks: nat := 2)
      ensures this.numMainBlocks == numMainBlocks && params == None && paramMappings == [] && events == []
    {
      this.numMainBlocks := numMainBlocks;
      params := None;
      paramMappings := [];
      events := [];
    }

    /** `runNet(input)`: inference needs loaded parameters and throws otherwise. The forward pass
        itself is tensor arithmetic; what the model returns is the parameter tree it runs with. */
    method RunNet() returns (r: Result<Node>)
      ensures r.Failure? <==> params.None?
      ensures r.Failure? ==> r.error == NotLoaded("AgeGenderNet")
      ensures r.Success? ==> params == Some(r.value)
    {
      if params.None? {
        return Failure(NotLoaded("AgeGenderNet"));
      }
      r := Success(params.value);
    }

    /** `loadClassifierParams(weights)`: replaces `_params` and `_paramMappings` with the extracted
        heads, or throws and leaves them as they were. Nothing else changes. */
    method LoadClassifierParams(weights: seq<real>) returns (r: Result<()>)
      modifies this
      ensures events == old(events)
      ensures r.Success? <==> |weights| == 1539
      ensures r.Failure? ==> params == old(params) && paramMappings == old(paramMappings)
      ensures r.Success? ==>
        && params.Some?
        && Conforms(params.value, AgeGenderParams.AgeGenderLayout())
        && Data(params.value) == weights
        && Tensors(params.value) ==
          [Tensor([512, 1], weights[..512]), Tensor([1], weights[512..513]),
           Tensor([512, 2], weights[513..1537]), Tensor([2], weights[1537..])]
        && paramMappings == ["fc/age/weights", "fc/age/bias", "fc/gender/weights", "fc/gender/bias"]
    {
      AgeGenderParams.AgeGenderFootprintValue();
      AgeGenderParams.AgeGenderPaths();
      var e :- AgeGenderParams.ExtractParams(weights);
      params := Some(e.params);
      paramMappings := e.paramMappings;
      r := Success(());
    }

    /** `extractParams(weights)`: the feature extractor is handed everything but the last 1539
        values, then the heads are extracted from those. What the extractor's own extraction throws,
        if anything, is `extractorError`; it aborts before the heads are read. The net's own fields
        are not set here. */
    method ExtractParams(weights: seq<real>, extractorError: Option<Error>) returns (r: Result<AgeGenderParams.Extraction>)
      modifies this
      ensures params == old(params) && paramMappings == old(paramMappings)
      ensures events == old(events) + [ExtractorFed(ExtractorWeights(weights, 1539))]
      ensures extractorError.Some? ==> r == Failure(extractorError.value)
      ensures extractorError.None? ==>
        && (r.Success? <==> |weights| >= 1539)
        && (r.Failure? ==> r.error.WeightsExhausted?)
      ensures r.Success? ==>
        && ExtractorWeights(weights, 1539) + Data(r.value.params) == weights
        && Data(r.value.params) == weights[|weights| - 1539..]
        && (var k := |weights| - 1539;
            Tensors(r.value.params) ==
              [Tensor([512, 1], weights[k..k + 512]), Tensor([1], weights[k + 512..k + 513]),
               Tensor([512, 2], weights[k + 513..k + 1537]), Tensor([2], weights[k + 1537..])])
        && Conforms(r.value.params, AgeGenderParams.AgeGenderLayout())
        && r.value.paramMappings == ["fc/age/weights", "fc/age/bias", "fc/gender/weights", "fc/gender/bias"]
    {
      AgeGenderParams.AgeGenderFootprintValue();
      var classifierWeightSize := (512 * 1 + 1) + (512 * 2 + 2);
      Split(weights, classifierWeightSize);
      events := events + [ExtractorFed(ExtractorWeights(weights, classifierWeightSize))];
      if extractorError.Some? {
        return Failure(extractorError.value);
      }
      AgeGenderParams.AgeGenderPaths();
      r := AgeGenderParams.ExtractParams(ClassifierWeights(weights, classifierWeightSize));
      if r.Success? {
        ClassifierSlices(weights);
      }
    }

    /** `extractParamsFromWeigthMap(weightMap)`: the entries not under `fc` go to the feature
        extractor, then the heads are read from the `fc` entries, whose unclaimed entries are
        released. What the extractor's own loading throws, if anything, is `extractorError`. */
    method ExtractParamsFromWeightMap(weightMap: map<string, Tensor>, extractorError: Option<Error>)
      returns (r: Result<AgeGenderParams.Extraction>, released: set<string>)
      modifies this
      ensures params == old(params) && paramMappings == old(paramMappings)
      ensures events == old(events) + [ExtractorMapFed(FeatureExtractorPart(weightMap))]
      ensures extractorError.Some? ==> r == Failure(extractorError.value)
      ensures r.Failure? ==> released == {}
      ensures extractorError.None? ==>
        && (r.Success? <==>
          && HasTensor(weightMap, "fc/age/weights", 2) && HasTensor(weightMap, "fc/age/bias", 1)
          && HasTensor(weightMap, "fc/gender/weights", 2) && HasTensor(weightMap, "fc/gender/bias", 1))
        && (r.Failure? ==> r.error.UnexpectedTensor?)
      ensures r.Success? ==>
        && Conforms(r.value.params, AgeGenderParams.AgeGenderLayout())
        && FromMap(weightMap, None, r.value.params)
        && r.value.paramMappings == ["fc/age/weights", "fc/age/bias", "fc/gender/weights", "fc/gender/bias"]
        && released == Unclaimed(ClassifierPart(weightMap), r.value.paramMappings)
    {
      released := {};
      var featureExtractorMap, classifierMap := SeparateWeightMaps(weightMap);
      events := events + [ExtractorMapFed(featureExtractorMap)];
      if extractorError.Some? {
        return Failure(extractorError.value), {};
      }
      HeadsFromCombined(weightMap);
      AgeGenderParams.AgeGenderPaths();
      r, released := AgeGenderParams.ExtractParamsFromWeightMap(classifierMap);
      if r.Success? {
        PartsPartition(weightMap);
        FromMapSubmap(classifierMap, weightMap, None, r.value.params);
      }
    }

    /** `dispose(throwOnRedispose = true)`: the feature extractor first, then the net itself, both
        with the same flag. */
    method Dispose(throwOnRedispose: bool := true)
      modifies this
      ensures params == old(params) && paramMappings == old(paramMappings)
      ensures events == old(events) + [ExtractorDisposed(throwOnRedispose), Disposed(throwOnRedispose)]
    {
      events := events + [ExtractorDisposed(throwOnRedispose)];
      events := events + [Disposed(throwOnRedispose)];
    }
  }

  /** The classifier part of a weight map holds both heads exactly when the whole map does, and
      holds the whole map's tensors at the heads' paths. */
  lemma HeadsFromCombined(m: map<string, Tensor>)
    ensures Available(ClassifierPart(m), None, AgeGenderParams.AgeGenderLayout()) <==>
      && HasTensor(m, "fc/age/weights", 2) && HasTensor(m, "fc/age/bias", 1)
      && HasTensor(m, "fc/gender/weights", 2) && HasTensor(m, "fc/gender/bias", 1)
    ensures forall p | p in AgeGenderHeadPaths() && p in m :: p in ClassifierPart(m) && ClassifierPart(m)[p] == m[p]
  {
    AgeGenderParams.AgeGenderAvailable(ClassifierPart(m));
    FcPrefixed();
    ClassifierPartHas(m, "fc/age/weights");
    ClassifierPartHas(m, "fc/age/bias");
    ClassifierPartHas(m, "fc/gender/weights");
    ClassifierPartHas(m, "fc/gender/bias");
    forall p | p in AgeGenderHeadPaths() && p in m
      ensures p in ClassifierPart(m) && ClassifierPart(m)[p] == m[p]
    {
      ClassifierPartHas(m, p);
    }
  }

  /** The four paths of the heads. */
  function AgeGenderHeadPaths(): seq<string> {
    ["fc/age/weights", "fc/age/bias", "fc/gender/weights", "fc/gender/bias"]
  }

  lemma FcPrefixed()
    ensures forall p | p in AgeGenderHeadPaths() :: StartsWith(p, "fc")
  {
  }
}
