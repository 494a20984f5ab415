/** The parameter layout of the Xception-style feature extractor used by the age and gender net,
    shared by its flat and its weight-map extractor: an entry flow, `numMainBlocks` main blocks in
    the middle flow, and an exit flow. */
module XceptionLayers {
  import opened Common
  import opened Params
  import opened Layers

  /** `{ separable_conv0, separable_conv1, expansion_conv }` */
  function ReductionLayout(): Layout {
    Group([Member("separable_conv0", SeparableLayout()), Member("separable_conv1", SeparableLayout()),
           Member("expansion_conv", ConvLayout())])
  }

  /** `{ separable_conv0, separable_conv1, separable_conv2 }` */
  function MainBlockLayout(): Layout {
    Group([Member("separable_conv0", SeparableLayout()), Member("separable_conv1", SeparableLayout()),
           Member("separable_conv2", SeparableLayout())])
  }

  /** `{ conv_in, reduction_block_0, reduction_block_1 }` */
  function EntryFlowLayout(): Layout {
    Group([Member("conv_in", ConvLayout()), Member("reduction_block_0", ReductionLayout()),
           Member("reduction_block_1", ReductionLayout())])
  }

  /** `main_block_${idx}` */
  function MainBlockKey(idx: nat): string {
    "main_block_" + NatToString(idx)
  }

  /** `main_block_0`, ..., `main_block_{n-1}`, in index order. */
  function MiddleMembers(n: nat): (ms: seq<Member>)
    ensures |ms| == n
  {
    if n == 0 then [] else MiddleMembers(n - 1) + [Member(MainBlockKey(n - 1), MainBlockLayout())]
  }

  /** `{ reduction_block, separable_conv }` */
  function ExitFlowLayout(): Layout {
    Group([Member("reduction_block", ReductionLayout()), Member("separable_conv", SeparableLayout())])
  }

  function XceptionMembers(numMainBlocks: nat): seq<Member> {
    [Member("entry_flow", EntryFlowLayout()), Member("middle_flow", Group(MiddleMembers(numMainBlocks))),
     Member("exit_flow", ExitFlowLayout())]
  }

  /** `params` of the extractor: `{ entry_flow, middle_flow, exit_flow }`. */
  function XceptionLayout(numMainBlocks: nat): Layout {
    Group(XceptionMembers(numMainBlocks))
  }

  // ----- footprints -----------------------------------------------------------------------

  /** A reduction block: separable in→out, separable out→out, then the 1×1 expansion conv in→out. */
  function ReductionFootprint(cIn: nat, cOut: nat): nat {
    SeparableFootprint(cIn, cOut) + SeparableFootprint(cOut, cOut) + ConvFootprint(cIn, cOut, 1)
  }

  /** A main block: three separable convs channels→channels. */
  function MainBlockFootprint(channels: nat): nat {
    3 * SeparableFootprint(channels, channels)
  }

  /** `conv_in` 3→32 with 3×3 filters, then reductions 32→64 and 64→128: 45024 values. */
  const EntryFlowFootprint: nat := ConvFootprint(3, 32, 3) + ReductionFootprint(32, 64) + ReductionFootprint(64, 128)

  /** A reduction 128→256, then a separable conv 256→512: 269184 values. */
  const ExitFlowFootprint: nat := ReductionFootprint(128, 256) + SeparableFootprint(256, 512)

  /** The values the extractor takes with `numMainBlocks` main blocks of 128 channels. */
  function XceptionFootprint(numMainBlocks: nat): nat {
    EntryFlowFootprint + numMainBlocks * MainBlockFootprint(128) + ExitFlowFootprint
  }

  /** The footprint is `314208 + 52992·numMainBlocks`. */
  lemma XceptionFootprintValue(numMainBlocks: nat)
    ensures EntryFlowFootprint == 45024 && ExitFlowFootprint == 269184 && MainBlockFootprint(128) == 52992
    ensures XceptionFootprint(numMainBlocks) == 314208 + 52992 * numMainBlocks
  {
  }

  // ----- the tensor shapes read from a flat buffer, in order ------------------------------

  function ReductionShapes(cIn: nat, cOut: nat): (ss: seq<seq<nat>>)
    ensures TotalSize(ss) == ReductionFootprint(cIn, cOut)
  {
    TotalSizeAppend(SeparableShapes(cIn, cOut), SeparableShapes(cOut, cOut));
    TotalSizeAppend(SeparableShapes(cIn, cOut) + SeparableShapes(cOut, cOut), ConvShapes(cIn, cOut, 1));
    SeparableShapes(cIn, cOut) + SeparableShapes(cOut, cOut) + ConvShapes(cIn, cOut, 1)
  }

  function MainBlockShapes(channels: nat): (ss: seq<seq<nat>>)
    ensures TotalSize(ss) == MainBlockFootprint(channels)
  {
    var s := SeparableShapes(channels, channels);
    TotalSizeAppend(s, s);
    TotalSizeAppend(s + s, s);
    s + s + s
  }

  function EntryFlowShapes(): (ss: seq<seq<nat>>)
    ensures TotalSize(ss) == EntryFlowFootprint
  {
    TotalSizeAppend(ConvShapes(3, 32, 3), ReductionShapes(32, 64));
    TotalSizeAppend(ConvShapes(3, 32, 3) + ReductionShapes(32, 64), ReductionShapes(64, 128));
    ConvShapes(3, 32, 3) + ReductionShapes(32, 64) + ReductionShapes(64, 128)
  }

  /** `n` main blocks of 128 channels, in index order. */
  function MiddleFlowShapes(n: nat): (ss: seq<seq<nat>>)
    ensures TotalSize(ss) == n * MainBlockFootprint(128)
  {
    if n == 0 then []
    else
      TotalSizeAppend(MiddleFlowShapes(n - 1), MainBlockShapes(128));
      MiddleFlowShapes(n - 1) + MainBlockShapes(128)
  }

  function ExitFlowShapes(): (ss: seq<seq<nat>>)
    ensures TotalSize(ss) == ExitFlowFootprint
  {
    TotalSizeAppend(ReductionShapes(128, 256), SeparableShapes(256, 512));
    ReductionShapes(128, 256) + SeparableShapes(256, 512)
  }

  /** Every tensor of the extractor, in the order it is read: entry flow, main blocks, exit flow. */
  function XceptionShapes(numMainBlocks: nat): (ss: seq<seq<nat>>)
    ensures TotalSize(ss) == XceptionFootprint(numMainBlocks)
  {
    TotalSizeAppend(EntryFlowShapes(), MiddleFlowShapes(numMainBlocks));
    TotalSizeAppend(EntryFlowShapes() + MiddleFlowShapes(numMainBlocks), ExitFlowShapes());
    EntryFlowShapes() + MiddleFlowShapes(numMainBlocks) + ExitFlowShapes()
  }

  // ----- keys and paths -------------------------------------------------------------------

  /** Main block `i` of `n` is `main_block_i`. */
  lemma {:induction false} MiddleMembersAt(n: nat, i: nat)
    requires i < n
    ensures MiddleMembers(n)[i] == Member(MainBlockKey(i), MainBlockLayout())
  {
    if i < n - 1 {
      MiddleMembersAt(n - 1, i);
    }
  }

  /** Distinct indices give distinct keys, so every `middle_flow[key] = …` adds a new key. */
  lemma MainBlockKeysDistinct(i: nat, j: nat)
    requires MainBlockKey(i) == MainBlockKey(j)
    ensures i == j
  {
    var p := "main_block_";
    assert MainBlockKey(i)[|p|..] == NatToString(i);
    assert MainBlockKey(j)[|p|..] == NatToString(j);
    NatToStringInjective(i, j);
  }

  /** `middle_flow` has exactly the keys `main_block_0..numMainBlocks-1`. */
  lemma MiddleKeys(n: nat)
    ensures MemberKeys(Group(MiddleMembers(n))) == seq(n, i requires 0 <= i < n => MainBlockKey(i))
  {
    forall i | 0 <= i < n
      ensures MiddleMembers(n)[i].key == MainBlockKey(i)
    {
      MiddleMembersAt(n, i);
    }
  }

  /** `params` has exactly the keys `entry_flow`, `middle_flow`, `exit_flow`. */
  lemma XceptionKeys(numMainBlocks: nat)
    ensures MemberKeys(XceptionLayout(numMainBlocks)) == ["entry_flow", "middle_flow", "exit_flow"]
  {
  }

  /** The first `n + 1` main blocks are in a map exactly when the first `n` are and so is block `n`. */
  lemma MiddleAvailableStep(m: map<string, Tensor>, n: nat)
    ensures Available(m, Some("middle_flow"), Group(MiddleMembers(n + 1))) <==>
      Available(m, Some("middle_flow"), Group(MiddleMembers(n)))
      && Available(m, Some(Under("middle_flow", MainBlockKey(n))), MainBlockLayout())
  {
    AvailableConcat(m, Some("middle_flow"), MiddleMembers(n), [Member(MainBlockKey(n), MainBlockLayout())]);
    Available1(m, Some("middle_flow"), Member(MainBlockKey(n), MainBlockLayout()));
  }

  /** A map holding `n` main blocks holds every shorter prefix of them. */
  lemma {:induction false} MiddleAvailablePrefix(m: map<string, Tensor>, i: nat, n: nat)
    requires i <= n
    ensures Available(m, Some("middle_flow"), Group(MiddleMembers(n))) ==>
      Available(m, Some("middle_flow"), Group(MiddleMembers(i)))
    decreases n - i
  {
    if i < n {
      MiddleAvailablePrefix(m, i + 1, n);
      MiddleAvailableStep(m, i);
    }
  }

  lemma ReductionPaths(at: string)
    ensures LayoutPaths(Some(at), ReductionLayout()) ==
      LayoutPaths(Some(Under(at, "separable_conv0")), SeparableLayout())
      + LayoutPaths(Some(Under(at, "separable_conv1")), SeparableLayout())
      + LayoutPaths(Some(Under(at, "expansion_conv")), ConvLayout())
  {
    Group3(Some(at), Member("separable_conv0", SeparableLayout()), Member("separable_conv1", SeparableLayout()),
           Member("expansion_conv", ConvLayout()));
  }

  lemma MainBlockPaths(at: string)
    ensures LayoutPaths(Some(at), MainBlockLayout()) ==
      LayoutPaths(Some(Under(at, "separable_conv0")), SeparableLayout())
      + LayoutPaths(Some(Under(at, "separable_conv1")), SeparableLayout())
      + LayoutPaths(Some(Under(at, "separable_conv2")), SeparableLayout())
  {
    Group3(Some(at), Member("separable_conv0", SeparableLayout()), Member("separable_conv1", SeparableLayout()),
           Member("separable_conv2", SeparableLayout()));
  }

  /** The paths are those of the entry flow, then the main blocks in index order, then the exit flow. */
  lemma XceptionPaths(numMainBlocks: nat)
    ensures LayoutPaths(None, XceptionLayout(numMainBlocks)) ==
      LayoutPaths(Some("entry_flow"), EntryFlowLayout())
      + LayoutPaths(Some("middle_flow"), Group(MiddleMembers(numMainBlocks)))
      + LayoutPaths(Some("exit_flow"), ExitFlowLayout())
  {
    Group3(None, Member("entry_flow", EntryFlowLayout()), Member("middle_flow", Group(MiddleMembers(numMainBlocks))),
           Member("exit_flow", ExitFlowLayout()));
  }
}
