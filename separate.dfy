/** `seperateWeightMaps(weightMap)`: the weight map of a face processor or of the age and gender
    net holds the feature extractor's tensors and the classifier's; the classifier's are those
    whose path starts with `fc`. */
module WeightMapSplit {
  import opened Common

  /** The entries that go to the classifier. */
  function ClassifierPart(m: map<string, Tensor>): map<string, Tensor> {
    map k | k in m && StartsWith(k, "fc") :: m[k]
  }

  /** The entries that go to the feature extractor. */
  function FeatureExtractorPart(m: map<string, Tensor>): map<string, Tensor> {
    map k | k in m && !StartsWith(k, "fc") :: m[k]
  }

  /** Every key lands in exactly one part, the classifier's exactly when it starts with `fc`, and
      keeps its tensor. */
  lemma PartsPartition(m: map<string, Tensor>)
    ensures ClassifierPart(m).Keys !! FeatureExtractorPart(m).Keys
    ensures ClassifierPart(m).Keys + FeatureExtractorPart(m).Keys == m.Keys
    ensures forall k :: k in ClassifierPart(m) <==> k in m && StartsWith(k, "fc")
    ensures forall k :: k in FeatureExtractorPart(m) <==> k in m && !StartsWith(k, "fc")
    ensures forall k | k in ClassifierPart(m) :: ClassifierPart(m)[k] == m[k]
    ensures forall k | k in FeatureExtractorPart(m) :: FeatureExtractorPart(m)[k] == m[k]
  {
  }

  /** The classifier part has a tensor at a path starting with `fc` exactly when the whole map does. */
  lemma ClassifierPartHas(m: map<string, Tensor>, path: string)
    requires StartsWith(path, "fc")
    ensures path in ClassifierPart(m) <==> path in m
    ensures path in m ==> ClassifierPart(m)[path] == m[path]
  {
  }

  /** `Object.keys(weightMap).forEach(key => …)`: each key is copied into the classifier map when
      it starts with `fc` and into the feature extractor map otherwise; the input map is a value
      and is only read. */
  method SeparateWeightMaps(weightMap: map<string, Tensor>)
    returns (featureExtractorMap: map<string, Tensor>, classifierMap: map<string, Tensor>)
    ensures featureExtractorMap == FeatureExtractorPart(weightMap)
    ensures classifierMap == ClassifierPart(weightMap)
  {
    featureExtractorMap, classifierMap := map[], map[];
    var todo := weightMap.Keys;
    while todo != {}
      invariant todo <= weightMap.Keys
      invariant forall k :: k in classifierMap <==> k in weightMap && k !in todo && StartsWith(k, "fc")
      invariant forall k :: k in featureExtractorMap <==> k in weightMap && k !in todo && !StartsWith(k, "fc")
      invariant forall k | k in classifierMap :: classifierMap[k] == weightMap[k]
      invariant forall k | k in featureExtractorMap :: featureExtractorMap[k] == weightMap[k]
      decreases |todo|
    {
      var key :| key in todo;
      if StartsWith(key, "fc") {
        classifierMap := classifierMap[key := weightMap[key]];
      } else {
        featureExtractorMap := featureExtractorMap[key := weightMap[key]];
      }
      todo := todo - {key};
    }
  }
}
