/** What the face processors and the age and gender net share: the log of calls they make on their
    nested feature extractor and on their own `NeuralNetwork` base, and the split of a flat buffer
    into the feature extractor's part and the classifier's. */
module Networks {
  import opened Common

  /** A call a net makes on its feature extractor or on its own base class. */
  datatype Event =
    | ExtractorFed(weights: seq<real>)                     // faceFeatureExtractor.extractWeights(weights)
    | ExtractorMapFed(weightMap: map<string, Tensor>)   // faceFeatureExtractor.loadFromWeightMap(weightMap)
    | ExtractorDisposed(throwOnRedispose: bool)            // faceFeatureExtractor.dispose(throwOnRedispose)
    | Disposed(throwOnRedispose: bool)                     // super.dispose(throwOnRedispose)

  /** The index both slices use: `weights.length - classifierWeightSize`, as `slice` resolves it. */
  function SplitIndex(len: nat, classifierWeightSize: nat): (k: nat)
    ensures k <= len
  {
    JsIndex(len - classifierWeightSize, len)
  }

  /** `weights.slice(0, weights.length - classifierWeightSize)` */
  function ExtractorWeights(weights: seq<real>, classifierWeightSize: nat): seq<real> {
    weights[..SplitIndex(|weights|, classifierWeightSize)]
  }

  /** `weights.slice(weights.length - classifierWeightSize)` */
  function ClassifierWeights(weights: seq<real>, classifierWeightSize: nat): seq<real> {
    weights[SplitIndex(|weights|, classifierWeightSize)..]
  }

  /** The two slices put back together are the buffer. The classifier gets exactly its
      `classifierWeightSize` values, the last ones, when the buffer is at least that long, and fewer
      otherwise. */
  lemma Split(weights: seq<real>, classifierWeightSize: nat)
    ensures ExtractorWeights(weights, classifierWeightSize) + ClassifierWeights(weights, classifierWeightSize) == weights
    ensures |ClassifierWeights(weights, classifierWeightSize)| <= classifierWeightSize
    ensures |ClassifierWeights(weights, classifierWeightSize)| == classifierWeightSize <==> |weights| >= classifierWeightSize
    ensures |weights| >= classifierWeightSize ==>
      && ClassifierWeights(weights, classifierWeightSize) == weights[|weights| - classifierWeightSize..]
      && ExtractorWeights(weights, classifierWeightSize) == weights[..|weights| - classifierWeightSize]
  {
    var k := SplitIndex(|weights|, classifierWeightSize);
    assert weights[..k] + weights[k..] == weights;
  }
}
