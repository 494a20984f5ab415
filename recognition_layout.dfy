/** The parameter layout of the ResNet-34-style face recognition net, shared by its flat and its
    weight-map extractor. */
module RecognitionLayers {
  import opened Common
  import opened Params
  import opened Layers

  /** `{ weights, biases }` of a scale layer. */
  function ScaleLayout(): Layout {
    Group([Member("weights", Rank(1)), Member("biases", Rank(1))])
  }

  /** `{ conv: { filters, bias }, scale: { weights, biases } }` */
  function ConvLayerLayout(): Layout {
    Group([Member("conv", ConvLayout()), Member("scale", ScaleLayout())])
  }

  /** `{ conv1, conv2 }` */
  function ResidualLayout(): Layout {
    Group([Member("conv1", ConvLayerLayout()), Member("conv2", ConvLayerLayout())])
  }

  /** A residual block `{ conv1, conv2 }` under `key`. */
  function Residual(key: string): Member {
    Member(key, ResidualLayout())
  }

  /** The 32-filter residual blocks. */
  function Conv32Residuals(): seq<Member> {
    [Residual("conv32_1"), Residual("conv32_2"), Residual("conv32_3")]
  }

  /** The 64-filter residual blocks, the first one halving the resolution. */
  function Conv64Residuals(): seq<Member> {
    [Residual("conv64_down"), Residual("conv64_1"), Residual("conv64_2"), Residual("conv64_3")]
  }

  /** The 128-filter residual blocks, the first one halving the resolution. */
  function Conv128Residuals(): seq<Member> {
    [Residual("conv128_down"), Residual("conv128_1"), Residual("conv128_2")]
  }

  /** The 256-filter residual blocks, the first one halving the resolution. */
  function Conv256Residuals(): seq<Member> {
    [Residual("conv256_down"), Residual("conv256_1"), Residual("conv256_2"), Residual("conv256_down_out")]
  }

  function RecognitionMembers(): seq<Member> {
    [ Member("conv32_down", ConvLayerLayout()),
      Residual("conv32_1"), Residual("conv32_2"), Residual("conv32_3"),
      Residual("conv64_down"), Residual("conv64_1"), Residual("conv64_2"), Residual("conv64_3"),
      Residual("conv128_down"), Residual("conv128_1"), Residual("conv128_2"),
      Residual("conv256_down"), Residual("conv256_1"), Residual("conv256_2"), Residual("conv256_down_out"),
      Member("fc", Rank(2)) ]
  }

  /** The members in the four groups the extractor builds them in, then `fc`. */
  lemma RecognitionMembersByStage()
    ensures RecognitionMembers() ==
      [Member("conv32_down", ConvLayerLayout())]
      + Conv32Residuals()
      + Conv64Residuals()
      + Conv128Residuals()
      + Conv256Residuals()
      + [Member("fc", Rank(2))]
  {
  }

  /** A weight map holds the recognition net exactly when it holds `conv32_down`, each group of
      residual blocks, and a rank-2 `fc`. */
  lemma RecognitionAvailable(m: map<string, Tensor>)
    ensures Available(m, None, RecognitionLayout()) <==>
      && Available(m, Some("conv32_down"), ConvLayerLayout())
      && Available(m, None, Group(Conv32Residuals()))
      && Available(m, None, Group(Conv64Residuals()))
      && Available(m, None, Group(Conv128Residuals()))
      && Available(m, None, Group(Conv256Residuals()))
      && HasTensor(m, "fc", 2)
  {
    var a, f := [Member("conv32_down", ConvLayerLayout())], [Member("fc", Rank(2))];
    var b, c, d, e := Conv32Residuals(), Conv64Residuals(), Conv128Residuals(), Conv256Residuals();
    RecognitionMembersByStage();
    AvailableConcat(m, None, a + b + c + d + e, f);
    AvailableConcat(m, None, a + b + c + d, e);
    AvailableConcat(m, None, a + b + c, d);
    AvailableConcat(m, None, a + b, c);
    AvailableConcat(m, None, a, b);
    Available1(m, None, a[0]);
    Available1(m, None, f[0]);
  }

  /** `params` of the recognition net: `conv32_down`, fourteen residual blocks and the `fc` matrix. */
  function RecognitionLayout(): Layout {
    Group(RecognitionMembers())
  }

  lemma ScalePaths(at: string)
    ensures LayoutPaths(Some(at), ScaleLayout()) == [Under(at, "weights"), Under(at, "biases")]
  {
    Group2(Some(at), Member("weights", Rank(1)), Member("biases", Rank(1)));
  }

  /** A conv layer records `<p>/conv/filters`, `<p>/conv/bias`, `<p>/scale/weights`,
      `<p>/scale/biases`, in that order. */
  lemma ConvLayerPaths(at: string)
    ensures LayoutPaths(Some(at), ConvLayerLayout()) ==
      [ Under(Under(at, "conv"), "filters"), Under(Under(at, "conv"), "bias"),
        Under(Under(at, "scale"), "weights"), Under(Under(at, "scale"), "biases") ]
  {
    Group2(Some(at), Member("conv", ConvLayout()), Member("scale", ScaleLayout()));
    ConvPaths(Under(at, "conv"));
    ScalePaths(Under(at, "scale"));
  }

  /** A residual block records all four paths of `<p>/conv1` before those of `<p>/conv2`. */
  lemma ResidualPaths(at: string)
    ensures LayoutPaths(Some(at), ResidualLayout()) ==
      LayoutPaths(Some(Under(at, "conv1")), ConvLayerLayout()) + LayoutPaths(Some(Under(at, "conv2")), ConvLayerLayout())
    ensures |LayoutPaths(Some(at), ResidualLayout())| == 8
  {
    Group2(Some(at), Member("conv1", ConvLayerLayout()), Member("conv2", ConvLayerLayout()));
    ConvLayerPaths(Under(at, "conv1"));
    ConvLayerPaths(Under(at, "conv2"));
  }

  /** The recognition net has 117 parameter tensors, and `fc` is the last path. */
  lemma {:induction false} RecognitionPathCount()
    ensures |LayoutPaths(None, RecognitionLayout())| == 117
    ensures LayoutPaths(None, RecognitionLayout())[116] == "fc"
  {
    var ms := RecognitionMembers();
    var k := |ms| - 1;
    PathsCountOfResiduals(ms[..k], 14);
    assert LayoutPaths(None, RecognitionLayout()) == MembersPaths(None, ms[..k]) + ["fc"];
  }

  /** The paths of the first `n + 1` members (conv32_down and `n` residual blocks). */
  lemma {:induction false} PathsCountOfResiduals(ms: seq<Member>, n: nat)
    requires n <= 14 && |ms| == n + 1 && ms[0] == Member("conv32_down", ConvLayerLayout())
    requires forall i | 1 <= i < |ms| :: ms[i].layout == ResidualLayout()
    ensures |MembersPaths(None, ms)| == 4 + 8 * n
    decreases n
  {
    if n == 0 {
      assert ms[..0] == [];
      ConvLayerPaths("conv32_down");
    } else {
      PathsCountOfResiduals(ms[..n], n - 1);
      ResidualPaths(ms[n].key);
    }
  }
}
