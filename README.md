# Face-recognition weight loading, modelled in Dafny

This project models the weight-loading core of the face-recognition code bundled with
react-native-tensorflow (a port of face-api.js). It also models the post-processing around that
core:

- the recognition, TinyXception and dense-block feature extractors;
- the classifier heads of the face processors and of the age and gender net.

Each network stores its parameters as a tree of named tensors. The tree is built from one of two
sources:

- a **flat buffer**: one ordered sequence of numbers, read by a cursor in a fixed order;
- a **weight map**: a dictionary from a slash-separated path to a tensor.

Both extractors also return `paramMappings`, the list of tensor paths in the order they were
claimed. The map extractor then disposes of every map entry that was not claimed.

The model states each architecture once, as a `Layout`: its keys in order and the rank of every
tensor. Both extractors of an architecture are proved to build a tree that conforms to that layout
and to record exactly the layout's paths. So the two sources agree by construction: they give the
same keys, the same ranks and the same path list.

The proved properties are these:
- the flat extractor succeeds exactly when the buffer holds the architecture's footprint;
- a shorter buffer fails with `WeightsExhausted`;
- a longer buffer fails with `WeightsRemaining` and the count of left-over values;
- the tree's tensors are exactly those cut from the buffer front to back, with the shapes the
  architecture gives each layer (for the recognition net, filters and `fc` transposed from the
  order they are stored in);
- the map extractor succeeds exactly when every path of the layout holds a tensor of the right rank;
- every tensor the map extractor returns is the map's own tensor at that path;
- the map extractor releases exactly the unclaimed entries.

Around the extractors, the model covers:
- how a face processor or the age and gender net splits a buffer or a map between its feature
  extractor and its classifier;
- the net's own state: `params`, `paramMappings`, and a log of calls to the nested extractor and the
  base class;
- the gender decision;
- landmark de-letterboxing and de-interleaving;
- the factories that attach results to a face record.

The cursor and the map loader are classes whose fields the extraction methods update (`pos`,
`paramMappings`, `released`). The face processor and the age and gender net are classes too. The
architecture and post-processing logic is functions and lemmas.

## Model

| member | source | states |
|---|---|---|
| Sources.WeightCursor.ExtractWeights | src/face-recon/src/faceRecognitionNet/extractParams.js:126-130 | Taking `n` values succeeds exactly when `n` remain. It returns the next `n` values and advances the cursor by `n`. Otherwise it fails with `WeightsExhausted(n, remaining)` and the cursor stays put. |
| Sources.WeightMapLoader.ExtractWeightEntry | src/face-recon/src/faceRecognitionNet/extractParamsFromWeigthMap.js:13 | The lookup succeeds exactly when the map holds a tensor of the requested rank at the path. It returns that tensor and appends the path to `paramMappings`. Otherwise it fails with `UnexpectedTensor(path, rank)`. |
| Sources.WeightMapLoader.DisposeUnused | src/face-recon/src/faceRecognitionNet/extractParamsFromWeigthMap.js:120 | Releases exactly the entries of the map that no recorded path claims. |
| Sources.Unclaimed | src/face-recon/src/faceRecognitionNet/extractParamsFromWeigthMap.js:120 | A key is released iff it is in the map and not among the claimed paths. |
| Common.JsIndex | src/face-recon/src/faceProcessor/FaceProcessor.js:107-108 | How `slice` resolves an index: a negative index counts from the end. The result is clamped to `[0, len]`. |
| Common.NatToStringInjective | src/face-recon/src/xception/extractParams.js:116-119 | Distinct block indices render to distinct `${idx}` strings. |
| Common.Unwrap | src/face-recon/src/ageGenderNet/AgeGenderNet.js:117-119 | A batch input gives the whole list; otherwise the result is the first item. |
| Params.ConformsKeys | src/face-recon/src/faceRecognitionNet/extractParams.js:167-186 | A tree conforming to a layout has the layout's keys, in order. |
| Params.Assign | src/face-recon/src/xception/extractParams.js:116-119 | `obj[key] = v`: a new key is appended after all others. An existing key keeps its place and takes the new value. |
| Params.FindKey | src/face-recon/src/xception/extractParams.js:116-119 | Returns the first position holding `key`, or None exactly when no entry has `key`. |
| Params.ConformsPaths | src/face-recon/src/faceRecognitionNet/extractParams.js:167-186 | Trees conforming to one layout have the layout's path list. |
| Params.SameLayoutSamePaths | src/face-recon/src/faceRecognitionNet/extractParamsFromWeigthMap.js:101-122 | Two trees conforming to one layout record the same paths, whatever their source. |
| Params.FromMapSubmap | src/face-recon/src/faceProcessor/utils.js:7-19 | A tree read from part of a map is read from the whole map too. |
| Layers.ConvPaths | src/face-recon/src/xception/extractParams.js:17 | A conv layer records `<p>/filters`, then `<p>/bias`. |
| Layers.SeparablePaths | src/face-recon/src/xception/extractParams.js:18 | A separable conv records `<p>/depthwise_filter`, `<p>/pointwise_filter`, `<p>/bias`. |
| Layers.FcPaths | src/face-recon/src/faceProcessor/extractParams.js:20-22 | An fc layer records `<p>/weights`, then `<p>/bias`. |
| Layers.FcAvailable | src/face-recon/src/faceProcessor/extractParamsFromWeigthMap.js:21-23 | A map holds an fc layer iff it has a rank-2 `weights` and a rank-1 `bias` under the prefix. |
| Layers.ExtractConvParams | src/face-recon/src/xception/extractParams.js:17 | Succeeds iff `cIn·cOut·fs²+cOut` values remain. The filters come out as `[fs,fs,cIn,cOut]` and the bias as `[cOut]`, with the values taken and the two paths recorded. |
| Layers.ExtractSeparableConvParams | src/face-recon/src/xception/extractParams.js:18 | Succeeds iff `9·cIn + cIn·cOut + cOut` values remain. The tensors are the depthwise `[3,3,cIn,1]`, pointwise `[1,1,cIn,cOut]` and bias `[cOut]`, with the paths in that order. |
| Layers.ExtractFcParams | src/face-recon/src/faceProcessor/extractParams.js:20-22 | Succeeds iff `cIn·cOut + cOut` values remain. The tensors are weights `[cIn,cOut]` and bias `[cOut]`. |
| Layers.LoadConvParams | src/face-recon/src/faceFeatureExtractor/loadParamsFactory.js:15 | Succeeds iff the map holds the conv layer at the prefix. The result is built from the map's tensors and records the layer's paths. |
| Layers.LoadSeparableConvParams | src/face-recon/src/faceFeatureExtractor/loadParamsFactory.js:16 | Succeeds iff the map holds the separable layer at the prefix. The result is built from the map's tensors and records its paths. |
| Layers.LoadFcParams | src/face-recon/src/faceProcessor/extractParamsFromWeigthMap.js:21-23 | Succeeds iff the map holds the fc layer at the prefix. The result is built from the map's tensors. |
| Transpose.Transpose2310At | src/face-recon/src/faceRecognitionNet/extractParams.js:29-34 | Element `[i][j][k][f]` of `transpose(w,[2,3,1,0])` is element `[f][k][i][j]` of `w`. |
| Transpose.Transpose10At | src/face-recon/src/faceRecognitionNet/extractParams.js:158-160 | Element `[i][j]` of `transpose(w,[1,0])` is element `[j][i]` of `w`. |
| RecognitionParams.DepthProduct | src/face-recon/src/faceRecognitionNet/extractParams.js:23 | The depth is the integer `d` with `numValues == numFilters·d·fs²`. |
| RecognitionParams.ExtractFilterValues | src/face-recon/src/faceRecognitionNet/extractParams.js:21-35 | Succeeds iff the values remain and the depth is an integer. Too few values fail with `WeightsExhausted`; a fractional depth fails with `DepthNotInteger`. On success the result is the transposed filter tensor of the values taken. |
| RecognitionParams.ExtractConvParams | src/face-recon/src/faceRecognitionNet/extractParams.js:45-56 | Filters, then bias. Success iff both fit and the depth is an integer. |
| RecognitionParams.ExtractScaleLayerParams | src/face-recon/src/faceRecognitionNet/extractParams.js:64-78 | `weights`, then `biases`, each `numWeights` long. Success iff `2·numWeights` values remain. |
| RecognitionParams.ExtractConvLayerParams | src/face-recon/src/faceRecognitionNet/extractParams.js:88-94 | `conv` then `scale`, taking `numFilterValues + 3·numFilters` values. The four tensors are exactly the transposed filters, bias, scale weights and scale biases cut from those values, and the four paths are recorded in that order. |
| RecognitionParams.ExtractResidualLayerParams | src/face-recon/src/faceRecognitionNet/extractParams.js:105-111 | `conv1` then `conv2`. The eight tensors are `conv1`'s, cut first with half the filter values when `isDown` (all of them otherwise), then `conv2`'s with the full filter count. |
| RecognitionParams.RecognitionDepths | src/face-recon/src/faceRecognitionNet/extractParams.js:139-156 | Every layer of the architecture has an integer depth (3, 32, 64, 128, 256). So the flat extractor never throws a depth error. |
| RecognitionParams.AddConv32Down | src/face-recon/src/faceRecognitionNet/extractParams.js:139 | `conv32_down` takes 4800 values: its tensors are the 7×7 filters of depth 3 for 32 filters (transposed), then the bias and scale tensors of 32 values each. |
| RecognitionParams.ExtractConv32Blocks | src/face-recon/src/faceRecognitionNet/extractParams.js:140-142 | Three 32-channel residual blocks take the next 55872 values; their tensors are those of the blocks `conv32_1..3`, cut one after the other. |
| RecognitionParams.ExtractConv64Blocks | src/face-recon/src/faceRecognitionNet/extractParams.js:144-147 | Four 64-channel blocks take the next 278016 values; their tensors are those of `conv64_down` (half-depth `conv1`) and `conv64_1..3`, cut in order. |
| RecognitionParams.ExtractConv128Blocks | src/face-recon/src/faceRecognitionNet/extractParams.js:149-151 | Three 128-channel blocks take the next 813312 values; their tensors are those of `conv128_down` (half-depth `conv1`) and `conv128_1..2`, cut in order. |
| RecognitionParams.ExtractConv256Blocks | src/face-recon/src/faceRecognitionNet/extractParams.js:153-156 | Four 256-channel blocks take the next 4429824 values; their tensors are those of `conv256_down` (half-depth `conv1`), `conv256_1..2` and `conv256_down_out`, a non-down block as the source extracts it. |
| RecognitionParams.ExtractLowerBlocks | src/face-recon/src/faceRecognitionNet/extractParams.js:139-147 | From the start of the buffer, `conv32_down` and the 32- and 64-channel blocks take 338688 values, with their tensors in order. |
| RecognitionParams.ExtractBlocks | src/face-recon/src/faceRecognitionNet/extractParams.js:139-156 | From the start, `conv32_down` and all fourteen residual blocks take the values up to the `fc` offset; their tensors are `conv32_down`'s then the blocks', in order. |
| RecognitionParams.AddFc | src/face-recon/src/faceRecognitionNet/extractParams.js:158-161 | `fc` takes 256·128 values, transposed to `[256,128]`. |
| RecognitionParams.ExtractParams | src/face-recon/src/faceRecognitionNet/extractParams.js:125-187 | Success iff the buffer is exactly the footprint. Too short fails with `WeightsExhausted`; too long gives `WeightsRemaining(excess)`. On success the tree conforms to the layout, all paths are recorded, and its tensors are exactly `RecognitionTensors(weights)`: `conv32_down`, the fourteen residual blocks, then the transposed `fc`. |
| RecognitionLayers.RecognitionMembersByStage | src/face-recon/src/faceRecognitionNet/extractParams.js:167-186 | `params` lists `conv32_down`, the four groups of residual blocks, then `fc`. |
| RecognitionLayers.RecognitionAvailable | src/face-recon/src/faceRecognitionNet/extractParamsFromWeigthMap.js:75-99 | A map holds the net iff it holds each stage and a rank-2 `fc`. |
| RecognitionLayers.ConvLayerPaths | src/face-recon/src/faceRecognitionNet/extractParams.js:88-94 | A conv layer records `conv/filters`, `conv/bias`, `scale/weights`, `scale/biases`. |
| RecognitionLayers.ResidualPaths | src/face-recon/src/faceRecognitionNet/extractParams.js:105-111 | A residual block records the 4 paths of `conv1`, then the 4 of `conv2`. |
| RecognitionLayers.RecognitionPathCount | src/face-recon/src/faceRecognitionNet/extractParams.js:139-161 | 117 tensors in all, with `fc` last. |
| RecognitionWeightMap.LoadScaleLayerParams | src/face-recon/src/faceRecognitionNet/extractParamsFromWeigthMap.js:20-26 | Succeeds iff `<p>/scale/weights` and `<p>/scale/biases` are rank-1 tensors of the map. |
| RecognitionWeightMap.LoadConvLayerParams | src/face-recon/src/faceRecognitionNet/extractParamsFromWeigthMap.js:33-40 | Succeeds iff the map holds the conv layer. The result is read from the map, with its paths recorded. |
| RecognitionWeightMap.LoadResidualLayerParams | src/face-recon/src/faceRecognitionNet/extractParamsFromWeigthMap.js:47-52 | Succeeds iff the map holds both conv layers of the block. |
| RecognitionWeightMap.LoadConv32Down | src/face-recon/src/faceRecognitionNet/extractParamsFromWeigthMap.js:75 | Succeeds iff `conv32_down` is in the map. |
| RecognitionWeightMap.LoadConv32Blocks | src/face-recon/src/faceRecognitionNet/extractParamsFromWeigthMap.js:76-78 | Succeeds iff the three 32-channel blocks are in the map. |
| RecognitionWeightMap.LoadConv64Blocks | src/face-recon/src/faceRecognitionNet/extractParamsFromWeigthMap.js:80-83 | Succeeds iff the four 64-channel blocks are in the map. |
| RecognitionWeightMap.LoadConv128Blocks | src/face-recon/src/faceRecognitionNet/extractParamsFromWeigthMap.js:85-87 | Succeeds iff the three 128-channel blocks are in the map. |
| RecognitionWeightMap.LoadConv256Blocks | src/face-recon/src/faceRecognitionNet/extractParamsFromWeigthMap.js:89-92 | Succeeds iff the four 256-channel blocks are in the map. |
| RecognitionWeightMap.LoadFc | src/face-recon/src/faceRecognitionNet/extractParamsFromWeigthMap.js:94-99 | Succeeds iff `fc` is a rank-2 tensor of the map; otherwise it throws. |
| RecognitionWeightMap.ExtractParamsFromWeightMap | src/face-recon/src/faceRecognitionNet/extractParamsFromWeigthMap.js:66-123 | Success iff the map holds the layout. The tree conforms and is read from the map, with the layout's paths recorded. Unclaimed entries are released on success; none are released on failure. |
| XceptionLayers.XceptionFootprintValue | src/face-recon/src/xception/extractParams.js:106-127 | The footprint is `314208 + 52992·numMainBlocks`. |
| XceptionLayers.MiddleMembersAt | src/face-recon/src/xception/extractParams.js:116-119 | Main block `i` of the middle flow is `main_block_i`. |
| XceptionLayers.MainBlockKeysDistinct | src/face-recon/src/xception/extractParams.js:116-119 | Distinct indices give distinct main-block keys. |
| XceptionLayers.MiddleKeys | src/face-recon/src/xception/extractParams.js:116-119 | `middle_flow` has exactly the keys `main_block_0..n-1`. |
| XceptionLayers.XceptionKeys | src/face-recon/src/xception/extractParams.js:133-136 | `params` has the keys `entry_flow`, `middle_flow`, `exit_flow`. |
| XceptionLayers.MiddleAvailablePrefix | src/face-recon/src/xception/extractParamsFromWeightMap.js:117-120 | A map holding `n` main blocks holds every shorter prefix of them. |
| XceptionLayers.ReductionPaths | src/face-recon/src/xception/extractParams.js:27-34 | A reduction block records `separable_conv0`, `separable_conv1`, `expansion_conv`. |
| XceptionLayers.MainBlockPaths | src/face-recon/src/xception/extractParams.js:42-49 | A main block records `separable_conv0..2`. |
| XceptionLayers.XceptionPaths | src/face-recon/src/xception/extractParams.js:106-127 | Entry flow paths, then main blocks in index order, then exit flow. |
| XceptionParams.ExtractReductionBlockParams | src/face-recon/src/xception/extractParams.js:27-34 | Succeeds iff the reduction footprint remains. The tensors are cut in order with the shapes of `separable_conv0` in→out, `separable_conv1` out→out and the 1×1 `expansion_conv` in→out; the paths follow the same order. |
| XceptionParams.ExtractMainBlockParams | src/face-recon/src/xception/extractParams.js:42-49 | Succeeds iff `3·(9c + c² + c)` values remain. The tensors are cut in order with the shapes of three separable convs c→c. |
| XceptionParams.ExtractEntryFlow | src/face-recon/src/xception/extractParams.js:106-114 | `conv_in` 3→32 (3×3) and reductions 32→64 and 64→128 take 45024 values; the tensors have those shapes, cut in order. |
| XceptionParams.ExtractMiddleFlow | src/face-recon/src/xception/extractParams.js:116-119 | The loop takes `52992·numMainBlocks` values. It builds `main_block_0..n-1` in order, each cut with the shapes of a 128-channel main block. |
| XceptionParams.ExtractExitFlow | src/face-recon/src/xception/extractParams.js:121-127 | A reduction 128→256 and a separable conv 256→512 take 269184 values, cut in order with those shapes. |
| XceptionParams.ExtractFlows | src/face-recon/src/xception/extractParams.js:106-127 | All three flows from the start of the buffer: the tensors are exactly `TensorsAt(weights, 0, XceptionShapes(n))`. |
| XceptionParams.ExtractParams | src/face-recon/src/xception/extractParams.js:90-137 | Success iff the buffer is exactly the footprint; errors as for the recognition net. The tree conforms, its tensors are the buffer cut front to back with the architecture's shapes, and all paths are recorded. |
| XceptionWeightMap.LoadReductionBlockParams | src/face-recon/src/xception/extractParamsFromWeightMap.js:33-40 | Succeeds iff the block is in the map; the result is read from the map. |
| XceptionWeightMap.LoadMainBlockParams | src/face-recon/src/xception/extractParamsFromWeightMap.js:47-54 | Succeeds iff the block is in the map; the result is read from the map. |
| XceptionWeightMap.LoadEntryFlow | src/face-recon/src/xception/extractParamsFromWeightMap.js:107-115 | Succeeds iff the entry flow is in the map. |
| XceptionWeightMap.LoadMiddleFlow | src/face-recon/src/xception/extractParamsFromWeightMap.js:117-120 | The loop succeeds iff all `numMainBlocks` blocks are in the map. |
| XceptionWeightMap.LoadExitFlow | src/face-recon/src/xception/extractParamsFromWeightMap.js:122-128 | Succeeds iff the exit flow is in the map. |
| XceptionWeightMap.ExtractParamsFromWeightMap | src/face-recon/src/xception/extractParamsFromWeightMap.js:96-133 | Success iff the map holds the layout, with keys `entry_flow, middle_flow, exit_flow`. The tree is read from the map with the layout's paths recorded. Unclaimed entries are released only on success. |
| DenseLayers.DenseBlock3Paths | src/face-recon/src/faceFeatureExtractor/extractorsFactory.js:26-35 | A block of three records `conv0`, `conv1`, `conv2`, in order. |
| DenseLayers.DenseBlock4Paths | src/face-recon/src/faceFeatureExtractor/extractorsFactory.js:45-51 | A block of four records the block of three, then `conv3`. |
| DenseParams.ExtractConv0 | src/face-recon/src/faceFeatureExtractor/extractorsFactory.js:28-30 | A 3×3 conv cIn→cOut when first, else a separable conv cIn→cOut; the footprint, the paths and the shapes of the tensors cut follow the branch. |
| DenseParams.ExtractDenseBlock3Params | src/face-recon/src/faceFeatureExtractor/extractorsFactory.js:26-35 | `conv0` (per `isFirstLayer`, default false), then two separable convs `cOut→cOut`. Succeeds iff the footprint remains; the tensors are cut in order with those shapes. |
| DenseParams.ExtractDenseBlock4Params | src/face-recon/src/faceFeatureExtractor/extractorsFactory.js:45-51 | The block of three with the same arguments, then a separable `conv3` `cOut→cOut`, cut in order with those shapes. |
| DenseWeightMap.LoadConv0 | src/face-recon/src/faceFeatureExtractor/loadParamsFactory.js:25-27 | A conv when first, else separable; succeeds iff it is in the map. |
| DenseWeightMap.LoadDenseBlock3Params | src/face-recon/src/faceFeatureExtractor/loadParamsFactory.js:24-32 | Succeeds iff the block is in the map; the result is read from it. |
| DenseWeightMap.LoadDenseBlock4Params | src/face-recon/src/faceFeatureExtractor/loadParamsFactory.js:40-49 | Succeeds iff the block is in the map; the result is read from it. |
| DenseWeightMap.ExtractParamsFromWeightMap | src/face-recon/src/faceFeatureExtractor/extractParamsFromWeigthMap.js:10-28 | `dense0..3` with only `dense0` first. Success iff the map holds the layout. The tree is read from the map and unclaimed entries are released. |
| DenseWeightMap.ExtractParamsFromWeightMapTiny | src/face-recon/src/faceFeatureExtractor/extractParamsFromWeigthMapTiny.js:10-27 | `dense0..2` (blocks of three), with the same guarantees. |
| FaceProcessorParams.FaceProcessorPaths | src/face-recon/src/faceProcessor/extractParams.js:22 | The head records `fc/weights`, then `fc/bias`. |
| FaceProcessorParams.FaceProcessorAvailable | src/face-recon/src/faceProcessor/extractParamsFromWeigthMap.js:21-23 | A map holds the head iff `fc/weights` is rank 2 and `fc/bias` rank 1. |
| FaceProcessorParams.ExtractParams | src/face-recon/src/faceProcessor/extractParams.js:11-33 | Succeeds iff the buffer is exactly `cIn·cOut+cOut`; exhaustion and remaining errors otherwise. The head holds the buffer. |
| FaceProcessorParams.ExtractParamsFromWeightMap | src/face-recon/src/faceProcessor/extractParamsFromWeigthMap.js:10-33 | Succeeds iff the map holds the head; the head is read from the map and unclaimed entries are released. |
| AgeGenderParams.AgeGenderPaths | src/face-recon/src/ageGenderNet/extractParams.js:20-21 | Paths `fc/age/weights`, `fc/age/bias`, `fc/gender/weights`, `fc/gender/bias`. |
| AgeGenderParams.AgeGenderAvailable | src/face-recon/src/ageGenderNet/extractParamsFromWeightMap.js:21-31 | A map holds both heads iff it has the four tensors at their ranks. |
| AgeGenderParams.ExtractParams | src/face-recon/src/ageGenderNet/extractParams.js:10-31 | Succeeds iff the buffer is exactly 1539 values; errors as above. The tensors are the age weights `[512,1]` and bias `[1]`, then the gender weights `[512,2]` and bias `[2]`, in buffer order. |
| AgeGenderParams.ExtractParamsFromWeightMap | src/face-recon/src/ageGenderNet/extractParamsFromWeightMap.js:10-37 | Succeeds iff the map holds both heads; unclaimed entries are released. |
| WeightMapSplit.PartsPartition | src/face-recon/src/faceProcessor/utils.js:7-19 | The two parts are disjoint and cover the map. A key goes to the classifier iff it starts with `fc`, and values are copied unchanged. |
| WeightMapSplit.ClassifierPartHas | src/face-recon/src/faceProcessor/utils.js:13 | Under a path starting with `fc`, the classifier part holds a tensor iff the whole map does. |
| WeightMapSplit.SeparateWeightMaps | src/face-recon/src/faceProcessor/utils.js:7-19 | The loop over the keys builds exactly the feature-extractor and classifier parts. |
| Networks.SplitIndex | src/face-recon/src/faceProcessor/FaceProcessor.js:107-108 | The resolved index lies within the buffer. |
| Networks.Split | src/face-recon/src/faceProcessor/FaceProcessor.js:101-112 | The two slices rejoin to the buffer. The classifier gets exactly its size, the last values, iff the buffer is long enough, and fewer otherwise. |
| FaceProcessorNet.ClassifierWeightSizes | src/face-recon/src/faceProcessor/FaceProcessor.js:105 | Classifier sizes: 34952 (68-point), 17544 (tiny), 1799 (expression). Each is the fc footprint of its channels. |
| FaceProcessorNet.FaceProcessor.constructor | src/face-recon/src/faceProcessor/FaceProcessor.js:16-19 | No parameters loaded, an empty call log. |
| FaceProcessorNet.FaceProcessor.RunNet | src/face-recon/src/faceProcessor/FaceProcessor.js:38-52 | Fails with `NotLoaded(name)` iff no parameters are loaded. |
| FaceProcessorNet.FaceProcessor.ExtractClassifierParams | src/face-recon/src/faceProcessor/FaceProcessor.js:78-80 | Succeeds iff the buffer is exactly the classifier size. The head holds the buffer, with paths `fc/weights, fc/bias`. |
| FaceProcessorNet.FaceProcessor.LoadClassifierParams | src/face-recon/src/faceProcessor/FaceProcessor.js:67-71 | On success, `params` and `paramMappings` become the extracted head. On failure nothing changes. |
| FaceProcessorNet.FaceProcessor.ExtractParams | src/face-recon/src/faceProcessor/FaceProcessor.js:101-112 | The extractor is fed everything but the last `size` values, and its error propagates. Then the head is built iff the buffer holds `size` values; it takes the last `size` values. |
| FaceProcessorNet.FaceProcessor.ExtractParamsFromWeightMap | src/face-recon/src/faceProcessor/FaceProcessor.js:87-94 | The extractor is fed the non-`fc` part. The head succeeds iff the map has `fc/weights` at rank 2 and `fc/bias` at rank 1, and is read from the map. Unclaimed classifier entries are released. |
| FaceProcessorNet.FaceProcessor.Dispose | src/face-recon/src/faceProcessor/FaceProcessor.js:58-61 | Disposes of the extractor, then the net, with the same flag. |
| FaceProcessorNet.ClassifierFromCombined | src/face-recon/src/faceProcessor/FaceProcessor.js:87-94 | The classifier part holds the head iff the combined map holds `fc/weights` at rank 2 and `fc/bias` at rank 1, and its tensors at those paths are the combined map's. |
| AgeGenderNetModel.Predict | src/face-recon/src/ageGenderNet/AgeGenderNet.js:103-107 | Male iff the gender output exceeds 0.5. The probability is that output for male and its complement for female. The age is passed through. |
| AgeGenderNetModel.PredictLikelier | src/face-recon/src/ageGenderNet/AgeGenderNet.js:103-107 | For an output in `[0,1]` the probability reported lies in `[0.5,1]`. |
| AgeGenderNetModel.Predictions | src/face-recon/src/ageGenderNet/AgeGenderNet.js:94-107 | One prediction per batch item: item i is `Predict` of the i-th age and the i-th male probability, so its age, gender and genderProbability are all those of the single-face decision. |
| AgeGenderNetModel.PredictAgeAndGender | src/face-recon/src/ageGenderNet/AgeGenderNet.js:90-120 | The list for a batch input, otherwise its only prediction. |
| AgeGenderNetModel.DefaultWeightCount | src/face-recon/src/ageGenderNet/AgeGenderNet.js:179 | The default net takes 421731 values: 420192 for TinyXception(2) and 1539 for the heads. |
| AgeGenderNetModel.AgeGenderNet.constructor | src/face-recon/src/ageGenderNet/AgeGenderNet.js:24-27 | No parameters loaded, the given number of main blocks, an empty call log. |
| AgeGenderNetModel.AgeGenderNet.RunNet | src/face-recon/src/ageGenderNet/AgeGenderNet.js:42-60 | Fails with `NotLoaded("AgeGenderNet")` iff no parameters are loaded. |
| AgeGenderNetModel.AgeGenderNet.LoadClassifierParams | src/face-recon/src/ageGenderNet/AgeGenderNet.js:143-147 | On success (exactly 1539 values) `params` holds the age `[512,1]`/`[1]` and gender `[512,2]`/`[2]` tensors of the buffer, with the four paths. On failure nothing changes. |
| AgeGenderNetModel.AgeGenderNet.ExtractParams | src/face-recon/src/ageGenderNet/AgeGenderNet.js:177-186 | The extractor is fed all but the last 1539 values. The heads are built iff 1539 values are there; the age `[512,1]`/`[1]` and gender `[512,2]`/`[2]` tensors take the last 1539, in order. |
| AgeGenderNetModel.AgeGenderNet.ExtractParamsFromWeightMap | src/face-recon/src/ageGenderNet/AgeGenderNet.js:163-170 | The extractor is fed the non-`fc` part. The heads succeed iff the four tensors are there, and are read from the map. Unclaimed classifier entries are released. |
| AgeGenderNetModel.AgeGenderNet.Dispose | src/face-recon/src/ageGenderNet/AgeGenderNet.js:134-137 | Disposes of the extractor, then the net, with the same flag. |
| AgeGenderNetModel.HeadsFromCombined | src/face-recon/src/ageGenderNet/AgeGenderNet.js:163-170 | The classifier part holds both heads iff the combined map holds the four head tensors at their ranks, and its tensors at those paths are the combined map's. |
| Landmarks.ScaledDimensions | src/face-recon/src/faceLandmarkNet/FaceLandmark68NetBase.js:19-25 | The longer side becomes `inputSize`, with the aspect ratio kept. |
| Landmarks.PaddingSquares | src/face-recon/src/faceLandmarkNet/FaceLandmark68NetBase.js:48-63 | At most one side is padded, and a square image is not padded. Side plus twice its padding is the square's side. |
| Landmarks.Interleaved | src/face-recon/src/faceLandmarkNet/FaceLandmark68NetBase.js:36-40 | 136 values: the first at even indices, the second at odd ones. |
| Landmarks.PostProcessRowAt | src/face-recon/src/faceLandmarkNet/FaceLandmark68NetBase.js:65-78 | `x_k = (out·S − padX)/w'`, and `y_k` likewise with `padY` and `h'`. |
| Landmarks.PostProcess | src/face-recon/src/faceLandmarkNet/FaceLandmark68NetBase.js:17-82 | Each batch row is post-processed against its own image. |
| Landmarks.LetterboxCentre | src/face-recon/src/faceLandmarkNet/FaceLandmark68NetBase.js:48-78 | A coordinate half-way along a side padded to the square lands half-way across the square. |
| Landmarks.RestoreLetterbox | src/face-recon/src/faceLandmarkNet/FaceLandmark68NetBase.js:65-78 | Undoing the letterbox of one coordinate gives it back. |
| Landmarks.PostProcessLetterboxed | src/face-recon/src/faceLandmarkNet/FaceLandmark68NetBase.js:17-82 | Post-processing exactly inverts letterboxing: a row letterboxed from coordinates relative to the image gives those coordinates back. |
| Landmarks.CentreStaysCentre | src/face-recon/src/faceLandmarkNet/FaceLandmark68NetBase.js:48-78 | The centre of the square maps to the centre of the image, whatever its shape. |
| Landmarks.EveryOtherAt | src/face-recon/src/faceLandmarkNet/FaceLandmark68NetBase.js:124-129 | The even (odd) filter keeps exactly the values at `start + 2i`. |
| Landmarks.Positions | src/face-recon/src/faceLandmarkNet/FaceLandmark68NetBase.js:124-129 | 68 points, point `i` being `(v[2i], v[2i+1])`. |
| Landmarks.PositionsInterleave | src/face-recon/src/faceLandmarkNet/FaceLandmark68NetBase.js:124-129 | Writing the points back interleaved gives the values again. |
| Landmarks.DetectLandmarks | src/face-recon/src/faceLandmarkNet/FaceLandmark68NetBase.js:116-143 | One `FaceLandmarks68` per image, from its post-processed row and dimensions. The list for a batch input, else the first. |
| Factories.Extend | src/face-recon/src/factories/withGender.js:25-28 | The keys of both records; the extension's values win and the rest are kept. |
| Factories.ExtendWithGender | src/face-recon/src/factories/withGender.js:25-28 | Adds `gender` and `genderProbability`, keeping everything else. |
| Factories.ExtendWithGenderRecognised | src/face-recon/src/factories/withGender.js:13-16 | The result is recognised iff the gender is `male`/`female` and the probability is a number in `[0,1]`. |
| Factories.PredictionRecognised | src/face-recon/src/factories/withGender.js:13-16 | A prediction of the age and gender net, recorded, is recognised. |
| Factories.ExtendWithAge | src/face-recon/src/factories/withAge.js:15-18 | Adds `age`, keeping everything else. |
| Factories.ExtendWithAgeRecognised | src/face-recon/src/factories/withAge.js:5-7 | The result is recognised iff the age is a number. |
| Factories.ExtendWithFaceDescriptor | src/face-recon/src/factories/withFaceDescriptor.js:7-10 | Adds `descriptor`, keeping everything else. |
| Factories.ExtendWithFaceExpressions | src/face-recon/src/factories/withFaceExpressions.js:17-20 | Adds `expressions`, keeping everything else. |
| Factories.ExtendWithFaceExpressionsRecognised | src/face-recon/src/factories/withFaceExpressions.js:7-9 | The result is recognised iff the value is a `FaceExpressions`. |
| Factories.ExtendWithFaceDetection | src/face-recon/src/factories/withFaceDetection.js:17-20 | Adds `detection`, keeping everything else. |
| Factories.ExtendWithFaceDetectionRecognised | src/face-recon/src/factories/withFaceDetection.js:7-9 | The result is recognised iff the value is a `FaceDetection`. |
| Factories.ExtensionsCompose | src/face-recon/src/factories/withAge.js:15-18 | Extending with one group after another keeps the earlier groups recognised. |

## Left out

- **Helper files not part of this model.** `common/` (`extractWeightsFactory`, the conv, separable
  and fc param factories, `extractWeightEntryFactory`, `disposeUnusedWeightTensors`) and `utils`
  (`isFloat`, `isTensor*`, `range`, `isValidProbablitiy`) are not part of this model. The helpers
  are modelled with face-api.js's layouts:
  - conv: filters `[fs,fs,cIn,cOut]`, then bias;
  - separable: depthwise `[3,3,cIn,1]`, pointwise `[1,1,cIn,cOut]`, then bias;
  - fc: weights `[cIn,cOut]`, then bias.

  The fc sizes agree with `FaceProcessor.js:105`.
- Sources.WeightCursor.ExtractWeights: fails when fewer than `n` values remain. A slice-based
  cursor, which this one is not shown to be, would return a shorter slice instead.
- Factories.IsWithFaceDetection, Factories.IsWithFaceExpressions: `instanceof` is modelled as an exact
  class-name match; an instance of a subclass of `FaceDetection` or `FaceExpressions`, which JavaScript
  also accepts, is not recognised.
- Factories.IsValidProbability: assumed to mean "a number in [0,1]".
- `range(n)`: assumed to be `0..n-1`.
- Tensor numerics: the forward passes, the convolutions, softmax and sigmoid, `tf.tidy` and tensor
  memory are not modelled.
  - `RunNet` only checks that parameters are loaded.
  - The disposal of tensors is the set `released`.
  - Elements are `real`, not 32-bit floats.
- The `NeuralNetwork` base class and the nested feature extractor are not modelled. They appear as
  a log of calls (`events`), and an extractor error is a parameter of the net's extract methods.
- I/O, async loading, the React Native environment and `NetInput` are not modelled.
  - `NetInput`'s resizing is reduced to the `isBatchInput` flag and to the image dimensions it
    reports.
  - The age and gender outputs are taken as one age value and one male probability per image.
- `withFaceLandmarks` and the remaining task classes are not modelled: they lie outside the weight-loading model.
- Xception channel chaining (each block's `cIn` is the previous block's `cOut`): stated only
  through the literal channel arguments, as in the source. It is not a separate lemma.
- Landmarks.PostProcessRowAt: requires positive image dimensions and a positive `inputSize`, because
  the padding arithmetic divides by them. The JavaScript would return `NaN` or `Infinity` instead.
- The landmark nets return coordinates relative to the image's width and height, as
  `FaceLandmark68NetBase.js:65-78` computes them, not pixel coordinates.
- Error kinds follow the code, not one generic kind:
  - too few values give `WeightsExhausted`;
  - left-over values give `WeightsRemaining(count)`;
  - a fractional depth gives `DepthNotInteger`;
  - a missing or wrong-rank map entry gives `UnexpectedTensor`.
