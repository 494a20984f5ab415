/** The weight-map extractor of the Xception-style feature extractor: the same blocks as the flat
    extractor, looked up by path, with the unclaimed entries of the map released at the end. */
module XceptionWeightMap {
  import opened Common
  import opened Params
  import opened Sources
  import opened Layers
  import opened XceptionLayers

  datatype Extraction = Extraction(params: Node, paramMappings: seq<string>)

  /** `extractReductionBlockParams(mappedPrefix)`: `separable_conv0`, `separable_conv1`, then
      `expansion_conv`, each under `mappedPrefix`. */
  method LoadReductionBlockParams(l: WeightMapLoader, prefix: string) returns (r: Result<Node>)
    modifies l
    ensures l.released == old(l.released)
    ensures r.Success? <==> Available(l.weightMap, Some(prefix), ReductionLayout())
    ensures r.Failure? ==> r.error.UnexpectedTensor?
    ensures r.Success? ==>
      && l.paramMappings == old(l.paramMappings) + LayoutPaths(Some(prefix), ReductionLayout())
      && Conforms(r.value, ReductionLayout())
      && FromMap(l.weightMap, Some(prefix), r.value)
  {
    ghost var p0 := l.paramMappings;
    Available3(l.weightMap, Some(prefix), Member("separable_conv0", SeparableLayout()), Member("separable_conv1", SeparableLayout()),
      Member("expansion_conv", ConvLayout()));
    var sep0 :- LoadSeparableConvParams(l, Under(prefix, "separable_conv0"));
    var sep1 :- LoadSeparableConvParams(l, Under(prefix, "separable_conv1"));
    var expansion :- LoadConvParams(l, Under(prefix, "expansion_conv"));
    var e0, e1, e2 := Entry("separable_conv0", sep0), Entry("separable_conv1", sep1), Entry("expansion_conv", expansion);
    ReductionPaths(prefix);
    AppendAssoc3(p0, LayoutPaths(Some(Under(prefix, "separable_conv0")), SeparableLayout()),
      LayoutPaths(Some(Under(prefix, "separable_conv1")), SeparableLayout()), LayoutPaths(Some(Under(prefix, "expansion_conv")), ConvLayout()));
    Conforms3(e0, e1, e2, Member("separable_conv0", SeparableLayout()), Member("separable_conv1", SeparableLayout()), Member("expansion_conv", ConvLayout()));
    FromMap3(l.weightMap, Some(prefix), e0, e1, e2);
    r := Success(Obj([e0, e1, e2]));
  }

  /** `extractMainBlockParams(mappedPrefix)`: `separable_conv0..2` under `mappedPrefix`. */
  method LoadMainBlockParams(l: WeightMapLoader, prefix: string) returns (r: Result<Node>)
    modifies l
    ensures l.released == old(l.released)
    ensures r.Success? <==> Available(l.weightMap, Some(prefix), MainBlockLayout())
    ensures r.Failure? ==> r.error.UnexpectedTensor?
    ensures r.Success? ==>
      && l.paramMappings == old(l.paramMappings) + LayoutPaths(Some(prefix), MainBlockLayout())
      && Conforms(r.value, MainBlockLayout())
      && FromMap(l.weightMap, Some(prefix), r.value)
  {
    ghost var p0 := l.paramMappings;
    Available3(l.weightMap, Some(prefix), Member("separable_conv0", SeparableLayout()), Member("separable_conv1", SeparableLayout()),
      Member("separable_conv2", SeparableLayout()));
    var sep0 :- LoadSeparableConvParams(l, Under(prefix, "separable_conv0"));
    var sep1 :- LoadSeparableConvParams(l, Under(prefix, "separable_conv1"));
    var sep2 :- LoadSeparableConvParams(l, Under(prefix, "separable_conv2"));
    var e0, e1, e2 := Entry("separable_conv0", sep0), Entry("separable_conv1", sep1), Entry("separable_conv2", sep2);
    MainBlockPaths(prefix);
    AppendAssoc3(p0, LayoutPaths(Some(Under(prefix, "separable_conv0")), SeparableLayout()),
      LayoutPaths(Some(Under(prefix, "separable_conv1")), SeparableLayout()), LayoutPaths(Some(Under(prefix, "separable_conv2")), SeparableLayout()));
    Conforms3(e0, e1, e2, Member("separable_conv0", SeparableLayout()), Member("separable_conv1", SeparableLayout()), Member("separable_conv2", SeparableLayout()));
    FromMap3(l.weightMap, Some(prefix), e0, e1, e2);
    r := Success(Obj([e0, e1, e2]));
  }

  /** `entry_flow`: `conv_in`, `reduction_block_0`, `reduction_block_1`. */
  method LoadEntryFlow(l: WeightMapLoader) returns (r: Result<Node>)
    modifies l
    ensures l.released == old(l.released)
    ensures r.Success? <==> Available(l.weightMap, Some("entry_flow"), EntryFlowLayout())
    ensures r.Failure? ==> r.error.UnexpectedTensor?
    ensures r.Success? ==>
      && l.paramMappings == old(l.paramMappings) + LayoutPaths(Some("entry_flow"), EntryFlowLayout())
      && Conforms(r.value, EntryFlowLayout())
      && FromMap(l.weightMap, Some("entry_flow"), r.value)
  {
    ghost var p0 := l.paramMappings;
    var m0, m1, m2 := Member("conv_in", ConvLayout()), Member("reduction_block_0", ReductionLayout()), Member("reduction_block_1", ReductionLayout());
    Available3(l.weightMap, Some("entry_flow"), m0, m1, m2);
    var conv_in :- LoadConvParams(l, Under("entry_flow", "conv_in"));
    var block0 :- LoadReductionBlockParams(l, Under("entry_flow", "reduction_block_0"));
    var block1 :- LoadReductionBlockParams(l, Under("entry_flow", "reduction_block_1"));
    var e0, e1, e2 := Entry("conv_in", conv_in), Entry("reduction_block_0", block0), Entry("reduction_block_1", block1);
    Group3(Some("entry_flow"), m0, m1, m2);
    AppendAssoc3(p0, LayoutPaths(Some(Under("entry_flow", "conv_in")), ConvLayout()),
      LayoutPaths(Some(Under("entry_flow", "reduction_block_0")), ReductionLayout()),
      LayoutPaths(Some(Under("entry_flow", "reduction_block_1")), ReductionLayout()));
    Conforms3(e0, e1, e2, m0, m1, m2);
    FromMap3(l.weightMap, Some("entry_flow"), e0, e1, e2);
    r := Success(Obj([e0, e1, e2]));
  }

  /** The middle flow after `idx` main blocks: their paths follow `p0`, the entries are keyed
      `main_block_0..idx-1` and hold the map's tensors, and the map holds all of them. */
  ghost predicate MiddleSoFar(l: WeightMapLoader, p0: seq<string>, middle: seq<Entry>, idx: nat)
    reads l
  {
    && l.paramMappings == p0 + LayoutPaths(Some("middle_flow"), Group(MiddleMembers(idx)))
    && Conforms(Obj(middle), Group(MiddleMembers(idx)))
    && FromMap(l.weightMap, Some("middle_flow"), Obj(middle))
    && Available(l.weightMap, Some("middle_flow"), Group(MiddleMembers(idx)))
  }

  /** One turn of the middle-flow loop: `middle_flow[main_block_idx]` is assigned the main block
      looked up under `middle_flow/main_block_idx`, a key the object does not hold yet. */
  method AddMainBlock(l: WeightMapLoader, ghost p0: seq<string>, middle: seq<Entry>, idx: nat) returns (r: Result<seq<Entry>>)
    requires MiddleSoFar(l, p0, middle, idx)
    modifies l
    ensures l.released == old(l.released)
    ensures r.Success? <==> Available(l.weightMap, Some(Under("middle_flow", MainBlockKey(idx))), MainBlockLayout())
    ensures r.Failure? ==> r.error.UnexpectedTensor?
    ensures r.Success? ==>
      && |r.value| == |middle| + 1 && r.value[..|middle|] == middle && r.value[|middle|].key == MainBlockKey(idx)
      && MiddleSoFar(l, p0, r.value, idx + 1)
  {
    var block :- LoadMainBlockParams(l, Under("middle_flow", MainBlockKey(idx)));
    ghost var m := Member(MainBlockKey(idx), MainBlockLayout());
    forall i | 0 <= i < |middle|
      ensures middle[i].key != MainBlockKey(idx)
    {
      MiddleMembersAt(idx, i);
      if middle[i].key == MainBlockKey(idx) {
        MainBlockKeysDistinct(i, idx);
      }
    }
    AppendEntry(Some("middle_flow"), middle, MiddleMembers(idx), Entry(MainBlockKey(idx), block), m);
    FromMapAppend(l.weightMap, Some("middle_flow"), middle, Entry(MainBlockKey(idx), block));
    MiddleAvailableStep(l.weightMap, idx);
    AppendAssoc(p0, LayoutPaths(Some("middle_flow"), Group(MiddleMembers(idx))), LayoutPaths(Some(Under("middle_flow", MainBlockKey(idx))), MainBlockLayout()));
    var updated := Assign(middle, MainBlockKey(idx), block);
    assert updated == middle + [Entry(MainBlockKey(idx), block)];
    r := Success(updated);
  }

  /** `middle_flow`: for `idx` from 0 to `numMainBlocks - 1`, the main block `main_block_idx`. */
  method LoadMiddleFlow(l: WeightMapLoader, numMainBlocks: nat) returns (r: Result<Node>)
    modifies l
    ensures l.released == old(l.released)
    ensures r.Success? <==> Available(l.weightMap, Some("middle_flow"), Group(MiddleMembers(numMainBlocks)))
    ensures r.Failure? ==> r.error.UnexpectedTensor?
    ensures r.Success? ==>
      && l.paramMappings == old(l.paramMappings) + LayoutPaths(Some("middle_flow"), Group(MiddleMembers(numMainBlocks)))
      && Conforms(r.value, Group(MiddleMembers(numMainBlocks)))
      && FromMap(l.weightMap, Some("middle_flow"), r.value)
  {
    ghost var p0 := l.paramMappings;
    var middle: seq<Entry> := [];
    var idx := 0;
    while idx < numMainBlocks
      invariant idx <= numMainBlocks
      invariant MiddleSoFar(l, p0, middle, idx)
      invariant l.released == old(l.released)
    {
      MiddleAvailablePrefix(l.weightMap, idx + 1, numMainBlocks);
      MiddleAvailableStep(l.weightMap, idx);
      middle :- AddMainBlock(l, p0, middle, idx);
      idx := idx + 1;
    }
    r := Success(Obj(middle));
  }

  /** `exit_flow`: `reduction_block`, then `separable_conv`. */
  method LoadExitFlow(l: WeightMapLoader) returns (r: Result<Node>)
    modifies l
    ensures l.released == old(l.released)
    ensures r.Success? <==> Available(l.weightMap, Some("exit_flow"), ExitFlowLayout())
    ensures r.Failure? ==> r.error.UnexpectedTensor?
    ensures r.Success? ==>
      && l.paramMappings == old(l.paramMappings) + LayoutPaths(Some("exit_flow"), ExitFlowLayout())
      && Conforms(r.value, ExitFlowLayout())
      && FromMap(l.weightMap, Some("exit_flow"), r.value)
  {
    ghost var p0 := l.paramMappings;
    var m0, m1 := Member("reduction_block", ReductionLayout()), Member("separable_conv", SeparableLayout());
    Available2(l.weightMap, Some("exit_flow"), m0, m1);
    var block :- LoadReductionBlockParams(l, Under("exit_flow", "reduction_block"));
    var sep :- LoadSeparableConvParams(l, Under("exit_flow", "separable_conv"));
    var e0, e1 := Entry("reduction_block", block), Entry("separable_conv", sep);
    Group2(Some("exit_flow"), m0, m1);
    AppendAssoc(p0, LayoutPaths(Some(Under("exit_flow", "reduction_block")), ReductionLayout()),
      LayoutPaths(Some(Under("exit_flow", "separable_conv")), SeparableLayout()));
    Conforms2(e0, e1, m0, m1);
    FromMap2(l.weightMap, Some("exit_flow"), e0, e1);
    r := Success(Obj([e0, e1]));
  }

  /** The three flows, looked up one after the other on a fresh loader. */
  method LoadFlows(l: WeightMapLoader, numMainBlocks: nat) returns (r: Result<Node>)
    requires l.paramMappings == []
    modifies l
    ensures l.released == old(l.released)
    ensures r.Success? <==> Available(l.weightMap, None, XceptionLayout(numMainBlocks))
    ensures r.Failure? ==> r.error.UnexpectedTensor?
    ensures r.Success? ==>
      && l.paramMappings == LayoutPaths(None, XceptionLayout(numMainBlocks))
      && Conforms(r.value, XceptionLayout(numMainBlocks))
      && FromMap(l.weightMap, None, r.value)
  {
    var m0, m1, m2 := Member("entry_flow", EntryFlowLayout()), Member("middle_flow", Group(MiddleMembers(numMainBlocks))),
      Member("exit_flow", ExitFlowLayout());
    Available3(l.weightMap, None, m0, m1, m2);
    var entry_flow :- LoadEntryFlow(l);
    var middle_flow :- LoadMiddleFlow(l, numMainBlocks);
    var exit_flow :- LoadExitFlow(l);
    var e0, e1, e2 := Entry("entry_flow", entry_flow), Entry("middle_flow", middle_flow), Entry("exit_flow", exit_flow);
    ghost var pe, pm, px := LayoutPaths(Some("entry_flow"), EntryFlowLayout()),
      LayoutPaths(Some("middle_flow"), Group(MiddleMembers(numMainBlocks))), LayoutPaths(Some("exit_flow"), ExitFlowLayout());
    AppendAssoc3([], pe, pm, px);
    EmptyConcat(pe + pm + px);
    XceptionPaths(numMainBlocks);
    Conforms3(e0, e1, e2, m0, m1, m2);
    FromMap3(l.weightMap, None, e0, e1, e2);
    r := Success(Obj([e0, e1, e2]));
  }

  /** `extractParamsFromWeigthMap(weightMap, numMainBlocks)`: succeeds exactly when every tensor of
      the layout with `numMainBlocks` main blocks is in the map with its rank; the parameters are
      then the map's own tensors, and `released` is every entry no recorded path claims. When a
      lookup throws, nothing is released. */
  method ExtractParamsFromWeightMap(weightMap: map<string, Tensor>, numMainBlocks: nat)
    returns (r: Result<Extraction>, released: set<string>)
    ensures r.Success? <==> Available(weightMap, None, XceptionLayout(numMainBlocks))
    ensures r.Failure? ==> r.error.UnexpectedTensor? && released == {}
    ensures r.Success? ==>
      && Conforms(r.value.params, XceptionLayout(numMainBlocks))
      && Keys(r.value.params) == ["entry_flow", "middle_flow", "exit_flow"]
      && FromMap(weightMap, None, r.value.params)
      && r.value.paramMappings == LayoutPaths(None, XceptionLayout(numMainBlocks))
      && released == Unclaimed(weightMap, r.value.paramMappings)
  {
    var l := new WeightMapLoader(weightMap);
    released := {};
    var params :- LoadFlows(l, numMainBlocks);
    l.DisposeUnused();
    ConformsKeys(params, XceptionLayout(numMainBlocks));
    XceptionKeys(numMainBlocks);
    r, released := Success(Extraction(params, l.paramMappings)), l.released;
  }
}
