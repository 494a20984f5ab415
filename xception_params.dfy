/** The flat-buffer extractor of the Xception-style feature extractor. Every builder takes its
    values from the shared cursor in call order and records its paths in the same order, so the
    tensors of the result hold the buffer's values front to back. */
module XceptionParams {
  import opened Common
  import opened Params
  import opened Sources
  import opened Layers
  import opened XceptionLayers

  datatype Extraction = Extraction(params: Node, paramMappings: seq<string>)

  /** `extractReductionBlockParams(channelsIn, channelsOut, prefix)`: `separable_conv0` in→out,
      `separable_conv1` out→out, then the 1×1 `expansion_conv` in→out. */
  method ExtractReductionBlockParams(c: WeightCursor, channelsIn: nat, channelsOut: nat, prefix: string)
    returns (r: Result<Node>)
    requires c.Valid()
    modifies c
    ensures c.Valid()
    ensures r.Success? <==> ReductionFootprint(channelsIn, channelsOut) <= old(c.Remaining())
    ensures r.Failure? ==> r.error.WeightsExhausted?
    ensures r.Success? ==>
      && c.pos == old(c.pos) + ReductionFootprint(channelsIn, channelsOut)
      && c.paramMappings == old(c.paramMappings) + LayoutPaths(Some(prefix), ReductionLayout())
      && Conforms(r.value, ReductionLayout())
      && CutFrom(Tensors(r.value), c.weights, old(c.pos), ReductionShapes(channelsIn, channelsOut))
      && Data(r.value) == c.weights[old(c.pos)..c.pos]
  {
    ghost var a, p0 := c.pos, c.paramMappings;
    var sep0 :- ExtractSeparableConvParams(c, channelsIn, channelsOut, Under(prefix, "separable_conv0"));
    ghost var b := c.pos;
    var sep1 :- ExtractSeparableConvParams(c, channelsOut, channelsOut, Under(prefix, "separable_conv1"));
    ghost var d := c.pos;
    var expansion :- ExtractConvParams(c, channelsIn, channelsOut, 1, Under(prefix, "expansion_conv"));
    var e0, e1, e2 := Entry("separable_conv0", sep0), Entry("separable_conv1", sep1), Entry("expansion_conv", expansion);
    ReductionPaths(prefix);
    Obj3(None, e0, e1, e2);
    ObjCut3(c.weights, a, b, d, e0, e1, e2, SeparableShapes(channelsIn, channelsOut), SeparableShapes(channelsOut, channelsOut), ConvShapes(channelsIn, channelsOut, 1));
    Conforms3(e0, e1, e2, Member("separable_conv0", SeparableLayout()), Member("separable_conv1", SeparableLayout()), Member("expansion_conv", ConvLayout()));
    SliceConcat3(c.weights, a, b, d, c.pos);
    AppendAssoc3(p0, LayoutPaths(Some(Under(prefix, "separable_conv0")), SeparableLayout()),
      LayoutPaths(Some(Under(prefix, "separable_conv1")), SeparableLayout()), LayoutPaths(Some(Under(prefix, "expansion_conv")), ConvLayout()));
    r := Success(Obj([e0, e1, e2]));
  }

  /** `extractMainBlockParams(channels, prefix)`: three separable convs channels→channels. */
  method ExtractMainBlockParams(c: WeightCursor, channels: nat, prefix: string) returns (r: Result<Node>)
    requires c.Valid()
    modifies c
    ensures c.Valid()
    ensures r.Success? <==> MainBlockFootprint(channels) <= old(c.Remaining())
    ensures r.Failure? ==> r.error.WeightsExhausted?
    ensures r.Success? ==>
      && c.pos == old(c.pos) + MainBlockFootprint(channels)
      && c.paramMappings == old(c.paramMappings) + LayoutPaths(Some(prefix), MainBlockLayout())
      && Conforms(r.value, MainBlockLayout())
      && CutFrom(Tensors(r.value), c.weights, old(c.pos), MainBlockShapes(channels))
      && Data(r.value) == c.weights[old(c.pos)..c.pos]
  {
    ghost var a, p0 := c.pos, c.paramMappings;
    var sep0 :- ExtractSeparableConvParams(c, channels, channels, Under(prefix, "separable_conv0"));
    ghost var b := c.pos;
    var sep1 :- ExtractSeparableConvParams(c, channels, channels, Under(prefix, "separable_conv1"));
    ghost var d := c.pos;
    var sep2 :- ExtractSeparableConvParams(c, channels, channels, Under(prefix, "separable_conv2"));
    var e0, e1, e2 := Entry("separable_conv0", sep0), Entry("separable_conv1", sep1), Entry("separable_conv2", sep2);
    MainBlockPaths(prefix);
    Obj3(None, e0, e1, e2);
    ObjCut3(c.weights, a, b, d, e0, e1, e2, SeparableShapes(channels, channels), SeparableShapes(channels, channels), SeparableShapes(channels, channels));
    Conforms3(e0, e1, e2, Member("separable_conv0", SeparableLayout()), Member("separable_conv1", SeparableLayout()), Member("separable_conv2", SeparableLayout()));
    SliceConcat3(c.weights, a, b, d, c.pos);
    AppendAssoc3(p0, LayoutPaths(Some(Under(prefix, "separable_conv0")), SeparableLayout()),
      LayoutPaths(Some(Under(prefix, "separable_conv1")), SeparableLayout()), LayoutPaths(Some(Under(prefix, "separable_conv2")), SeparableLayout()));
    r := Success(Obj([e0, e1, e2]));
  }

  /** `entry_flow`: `conv_in` 3→32 with 3×3 filters, then reduction blocks 32→64 and 64→128. */
  method ExtractEntryFlow(c: WeightCursor) returns (r: Result<Node>)
    requires c.Valid()
    modifies c
    ensures c.Valid()
    ensures r.Success? <==> EntryFlowFootprint <= old(c.Remaining())
    ensures r.Failure? ==> r.error.WeightsExhausted?
    ensures r.Success? ==>
      && c.pos == old(c.pos) + EntryFlowFootprint
      && c.paramMappings == old(c.paramMappings) + LayoutPaths(Some("entry_flow"), EntryFlowLayout())
      && Conforms(r.value, EntryFlowLayout())
      && CutFrom(Tensors(r.value), c.weights, old(c.pos), EntryFlowShapes())
      && Data(r.value) == c.weights[old(c.pos)..c.pos]
  {
    ghost var a, p0 := c.pos, c.paramMappings;
    var conv_in :- ExtractConvParams(c, 3, 32, 3, Under("entry_flow", "conv_in"));
    ghost var b := c.pos;
    var block0 :- ExtractReductionBlockParams(c, 32, 64, Under("entry_flow", "reduction_block_0"));
    ghost var d := c.pos;
    var block1 :- ExtractReductionBlockParams(c, 64, 128, Under("entry_flow", "reduction_block_1"));
    var e0, e1, e2 := Entry("conv_in", conv_in), Entry("reduction_block_0", block0), Entry("reduction_block_1", block1);
    PathsAfter3(p0, "entry_flow", Member("conv_in", ConvLayout()), Member("reduction_block_0", ReductionLayout()),
                Member("reduction_block_1", ReductionLayout()));
    Obj3(None, e0, e1, e2);
    ObjCut3(c.weights, a, b, d, e0, e1, e2, ConvShapes(3, 32, 3), ReductionShapes(32, 64), ReductionShapes(64, 128));
    Conforms3(e0, e1, e2, Member("conv_in", ConvLayout()), Member("reduction_block_0", ReductionLayout()), Member("reduction_block_1", ReductionLayout()));
    SliceConcat3(c.weights, a, b, d, c.pos);
    r := Success(Obj([e0, e1, e2]));
  }

  /** The middle flow after `idx` main blocks: their paths follow `p0`, the entries are keyed
      `main_block_0..idx-1`, and their values are the buffer's from `start` on. */
  ghost predicate MiddleSoFar(c: WeightCursor, start: nat, p0: seq<string>, middle: seq<Entry>, idx: nat)
    reads c
  {
    && c.Valid() && start <= c.pos
    && c.paramMappings == p0 + LayoutPaths(Some("middle_flow"), Group(MiddleMembers(idx)))
    && Conforms(Obj(middle), Group(MiddleMembers(idx)))
    && c.pos == start + idx * MainBlockFootprint(128)
    && CutFrom(Tensors(Obj(middle)), c.weights, start, MiddleFlowShapes(idx))
    && Data(Obj(middle)) == c.weights[start..c.pos]
  }

  /** The main block read at `at`, right after `idx` main blocks read from `start`, extends them up
      to `at'`. */
  lemma MiddleFlowCut(w: seq<real>, start: nat, at: nat, at': nat, middle: seq<Entry>, e: Entry, idx: nat)
    requires at == start + idx * MainBlockFootprint(128) && at' == at + MainBlockFootprint(128) <= |w|
    requires CutFrom(Tensors(Obj(middle)), w, start, MiddleFlowShapes(idx))
    requires CutFrom(Tensors(e.node), w, at, MainBlockShapes(128))
    requires Data(Obj(middle)) == w[start..at] && Data(e.node) == w[at..at']
    ensures at' == start + (idx + 1) * MainBlockFootprint(128)
    ensures CutFrom(Tensors(Obj(middle + [e])), w, start, MiddleFlowShapes(idx + 1))
    ensures Data(Obj(middle + [e])) == w[start..at']
  {
    XceptionFootprintValue(idx);
    EntriesTensorsAppend(middle, e);
    EntriesDataAppend(middle, e);
    SliceConcat(w, start, at, at');
    CutFromAppend(Tensors(Obj(middle)), Tensors(e.node), w, start, at, MiddleFlowShapes(idx), MainBlockShapes(128));
  }

  /** The middle flow after `idx` main blocks and the main block read next give the middle flow
      after `idx + 1`: `middle_flow[main_block_idx] = block` appends a new key. */
  lemma MiddleFlowStep(p0: seq<string>, middle: seq<Entry>, idx: nat, block: Node, pm: seq<string>, pm': seq<string>)
    requires pm == p0 + LayoutPaths(Some("middle_flow"), Group(MiddleMembers(idx)))
    requires Conforms(Obj(middle), Group(MiddleMembers(idx)))
    requires pm' == pm + LayoutPaths(Some(Under("middle_flow", MainBlockKey(idx))), MainBlockLayout())
    requires Conforms(block, MainBlockLayout())
    ensures Assign(middle, MainBlockKey(idx), block) == middle + [Entry(MainBlockKey(idx), block)]
    ensures pm' == p0 + LayoutPaths(Some("middle_flow"), Group(MiddleMembers(idx + 1)))
    ensures Conforms(Obj(middle + [Entry(MainBlockKey(idx), block)]), Group(MiddleMembers(idx + 1)))
  {
    var m := Member(MainBlockKey(idx), MainBlockLayout());
    var e := Entry(MainBlockKey(idx), block);
    forall i | 0 <= i < |middle|
      ensures middle[i].key != MainBlockKey(idx)
    {
      MiddleMembersAt(idx, i);
      if middle[i].key == MainBlockKey(idx) {
        MainBlockKeysDistinct(i, idx);
      }
    }
    AppendEntry(Some("middle_flow"), middle, MiddleMembers(idx), e, m);
    AppendAssoc(p0, LayoutPaths(Some("middle_flow"), Group(MiddleMembers(idx))), LayoutPaths(Some(Under("middle_flow", MainBlockKey(idx))), MainBlockLayout()));
  }

  /** One turn of the middle-flow loop: the main block at `idx` and its assignment to a key the
      object does not hold yet, so it is appended. */
  method AddMainBlock(c: WeightCursor, ghost start: nat, ghost p0: seq<string>, middle: seq<Entry>, idx: nat)
    returns (r: Result<seq<Entry>>)
    requires MiddleSoFar(c, start, p0, middle, idx)
    modifies c
    ensures c.Valid()
    ensures r.Success? <==> MainBlockFootprint(128) <= old(c.Remaining())
    ensures r.Failure? ==> r.error.WeightsExhausted?
    ensures r.Success? ==>
      && c.pos == old(c.pos) + MainBlockFootprint(128)
      && |r.value| == |middle| + 1 && r.value[..|middle|] == middle && r.value[|middle|].key == MainBlockKey(idx)
      && MiddleSoFar(c, start, p0, r.value, idx + 1)
  {
    ghost var at, pm := c.pos, c.paramMappings;
    var block :- ExtractMainBlockParams(c, 128, Under("middle_flow", MainBlockKey(idx)));
    MiddleFlowStep(p0, middle, idx, block, pm, c.paramMappings);
    MiddleFlowCut(c.weights, start, at, c.pos, middle, Entry(MainBlockKey(idx), block), idx);
    var updated := Assign(middle, MainBlockKey(idx), block);
    assert updated[..|middle|] == middle;
    r := Success(updated);
  }

  /** `middle_flow`: for `idx` from 0 to `numMainBlocks - 1`, `middle_flow[main_block_idx]` is
      set to a 128-channel main block read under `middle_flow/main_block_idx`. */
  method ExtractMiddleFlow(c: WeightCursor, numMainBlocks: nat) returns (r: Result<Node>)
    requires c.Valid()
    modifies c
    ensures c.Valid()
    ensures r.Success? <==> numMainBlocks * MainBlockFootprint(128) <= old(c.Remaining())
    ensures r.Failure? ==> r.error.WeightsExhausted?
    ensures r.Success? ==>
      && c.pos == old(c.pos) + numMainBlocks * MainBlockFootprint(128)
      && c.paramMappings == old(c.paramMappings) + LayoutPaths(Some("middle_flow"), Group(MiddleMembers(numMainBlocks)))
      && Conforms(r.value, Group(MiddleMembers(numMainBlocks)))
      && CutFrom(Tensors(r.value), c.weights, old(c.pos), MiddleFlowShapes(numMainBlocks))
      && Data(r.value) == c.weights[old(c.pos)..c.pos]
  {
    XceptionFootprintValue(numMainBlocks);
    ghost var start, p0 := c.pos, c.paramMappings;
    var middle: seq<Entry> := [];
    var idx := 0;
    while idx < numMainBlocks
      invariant idx <= numMainBlocks
      invariant MiddleSoFar(c, start, p0, middle, idx)
    {
      middle :- AddMainBlock(c, start, p0, middle, idx);
      idx := idx + 1;
    }
    r := Success(Obj(middle));
  }

  /** `exit_flow`: a reduction block 128→256, then a separable conv 256→512. */
  method ExtractExitFlow(c: WeightCursor) returns (r: Result<Node>)
    requires c.Valid()
    modifies c
    ensures c.Valid()
    ensures r.Success? <==> ExitFlowFootprint <= old(c.Remaining())
    ensures r.Failure? ==> r.error.WeightsExhausted?
    ensures r.Success? ==>
      && c.pos == old(c.pos) + ExitFlowFootprint
      && c.paramMappings == old(c.paramMappings) + LayoutPaths(Some("exit_flow"), ExitFlowLayout())
      && Conforms(r.value, ExitFlowLayout())
      && CutFrom(Tensors(r.value), c.weights, old(c.pos), ExitFlowShapes())
      && Data(r.value) == c.weights[old(c.pos)..c.pos]
  {
    ghost var a, p0 := c.pos, c.paramMappings;
    var block :- ExtractReductionBlockParams(c, 128, 256, Under("exit_flow", "reduction_block"));
    ghost var b := c.pos;
    var sep :- ExtractSeparableConvParams(c, 256, 512, Under("exit_flow", "separable_conv"));
    var e0, e1 := Entry("reduction_block", block), Entry("separable_conv", sep);
    PathsAfter2(p0, "exit_flow", Member("reduction_block", ReductionLayout()), Member("separable_conv", SeparableLayout()));
    Obj2(None, e0, e1);
    ObjCut2(c.weights, a, b, e0, e1, ReductionShapes(128, 256), SeparableShapes(256, 512));
    Conforms2(e0, e1, Member("reduction_block", ReductionLayout()), Member("separable_conv", SeparableLayout()));
    SliceConcat(c.weights, a, b, c.pos);
    r := Success(Obj([e0, e1]));
  }

  /** The three flows, read one after the other into `{ entry_flow, middle_flow, exit_flow }`. */
  lemma AssembleFlows(entry: Node, middle: Node, exit: Node, numMainBlocks: nat)
    requires Conforms(entry, EntryFlowLayout())
    requires Conforms(middle, Group(MiddleMembers(numMainBlocks)))
    requires Conforms(exit, ExitFlowLayout())
    ensures Conforms(Obj([Entry("entry_flow", entry), Entry("middle_flow", middle), Entry("exit_flow", exit)]), XceptionLayout(numMainBlocks))
    ensures Tensors(Obj([Entry("entry_flow", entry), Entry("middle_flow", middle), Entry("exit_flow", exit)])) ==
      Tensors(entry) + Tensors(middle) + Tensors(exit)
    ensures Data(Obj([Entry("entry_flow", entry), Entry("middle_flow", middle), Entry("exit_flow", exit)])) ==
      Data(entry) + Data(middle) + Data(exit)
    ensures [] + LayoutPaths(Some("entry_flow"), EntryFlowLayout()) + LayoutPaths(Some("middle_flow"), Group(MiddleMembers(numMainBlocks)))
      + LayoutPaths(Some("exit_flow"), ExitFlowLayout()) == LayoutPaths(None, XceptionLayout(numMainBlocks))
  {
    var e0, e1, e2 := Entry("entry_flow", entry), Entry("middle_flow", middle), Entry("exit_flow", exit);
    var pe, pm, px := LayoutPaths(Some("entry_flow"), EntryFlowLayout()),
      LayoutPaths(Some("middle_flow"), Group(MiddleMembers(numMainBlocks))), LayoutPaths(Some("exit_flow"), ExitFlowLayout());
    AppendAssoc([], pe, pm);
    AppendAssoc([], pe + pm, px);
    EmptyConcat(pe + pm + px);
    XceptionPaths(numMainBlocks);
    Obj3(None, e0, e1, e2);
    Conforms3(e0, e1, e2, Member("entry_flow", EntryFlowLayout()), Member("middle_flow", Group(MiddleMembers(numMainBlocks))), Member("exit_flow", ExitFlowLayout()));
  }

  /** The three flows of `extractParams`, from the start of the buffer. */
  method ExtractFlows(c: WeightCursor, numMainBlocks: nat) returns (r: Result<Node>)
    requires c.Valid() && c.pos == 0 && c.paramMappings == []
    modifies c
    ensures c.Valid()
    ensures r.Success? <==> XceptionFootprint(numMainBlocks) <= |c.weights|
    ensures r.Failure? ==> r.error.WeightsExhausted?
    ensures r.Success? ==>
      && c.pos == XceptionFootprint(numMainBlocks)
      && Conforms(r.value, XceptionLayout(numMainBlocks))
      && c.paramMappings == LayoutPaths(None, XceptionLayout(numMainBlocks))
      && Tensors(r.value) == TensorsAt(c.weights, 0, XceptionShapes(numMainBlocks))
      && Data(r.value) == c.weights[0..c.pos]
  {
    XceptionFootprintValue(numMainBlocks);
    var entry_flow :- ExtractEntryFlow(c);
    ghost var b := c.pos;
    assert b == 45024;
    var middle_flow :- ExtractMiddleFlow(c, numMainBlocks);
    ghost var d := c.pos;
    assert d == 45024 + numMainBlocks * 52992;
    var exit_flow :- ExtractExitFlow(c);
    SliceConcat(c.weights, 0, b, d);
    SliceConcat(c.weights, 0, d, c.pos);
    AssembleFlows(entry_flow, middle_flow, exit_flow, numMainBlocks);
    CutFromAppend3(Tensors(entry_flow), Tensors(middle_flow), Tensors(exit_flow), c.weights, 0, b, d,
      EntryFlowShapes(), MiddleFlowShapes(numMainBlocks), ExitFlowShapes());
    r := Success(Obj([Entry("entry_flow", entry_flow), Entry("middle_flow", middle_flow), Entry("exit_flow", exit_flow)]));
    CutFromUnique(Tensors(r.value), c.weights, 0, XceptionShapes(numMainBlocks));
  }

  /** `extractParams(weights, numMainBlocks)`: the entry flow, the middle flow and the exit flow,
      read front to back. It succeeds exactly when the buffer holds `XceptionFootprint(numMainBlocks)`
      values, a shorter buffer runs out, and a longer one throws with the number of values left
      over. The tensors are then those of `XceptionShapes`, cut from the buffer front to back. */
  method ExtractParams(weights: seq<real>, numMainBlocks: nat) returns (r: Result<Extraction>)
    ensures r.Success? <==> |weights| == XceptionFootprint(numMainBlocks)
    ensures |weights| < XceptionFootprint(numMainBlocks) ==> r.Failure? && r.error.WeightsExhausted?
    ensures |weights| > XceptionFootprint(numMainBlocks) ==>
      r == Failure(WeightsRemaining(|weights| - XceptionFootprint(numMainBlocks)))
    ensures r.Success? ==>
      && Conforms(r.value.params, XceptionLayout(numMainBlocks))
      && r.value.paramMappings == LayoutPaths(None, XceptionLayout(numMainBlocks))
      && Tensors(r.value.params) == TensorsAt(weights, 0, XceptionShapes(numMainBlocks))
      && Data(r.value.params) == weights
  {
    var c := new WeightCursor(weights);
    var params :- ExtractFlows(c, numMainBlocks);
    SliceAll(weights);
    assert c.Remaining() == |weights| - XceptionFootprint(numMainBlocks);
    if c.Remaining() != 0 {
      return Failure(WeightsRemaining(c.Remaining()));
    }
    r := Success(Extraction(params, c.paramMappings));
  }
}
