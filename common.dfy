/** Values shared by every extractor: tensors, the errors an extraction throws, and a few
    JavaScript behaviours the extractors rely on (array slicing, number-to-string). */
module Common {

  datatype Option<+T> = None | Some(value: T) {
    function GetOr(default: T): T {
      match this
      case Some(v) => v
      case None => default
    }
  }

  /** The errors the extractors and networks throw. */
  datatype Error =
    | WeightsExhausted(requested: nat, remaining: nat)  // the flat buffer holds fewer values than requested
    | DepthNotInteger(numValues: nat, numFilters: nat, filterSize: nat)
    | WeightsRemaining(count: nat)                     // values left over after a full extraction
    | UnexpectedTensor(path: string, rank: nat)        // weight map entry missing or of another rank
    | NotLoaded(name: string)                          // inference before the parameters were loaded

  /** A computation that either returns a value or throws an `Error`; usable with `:-`. */
  datatype Result<+T> = Success(value: T) | Failure(error: Error) {
    predicate IsFailure() {
      Failure?
    }
    function PropagateFailure<U>(): Result<U>
      requires Failure?
    {
      Failure(error)
    }
    function Extract(): T
      requires Success?
    {
      value
    }
  }

  /** A tensor as the extractors see it: a shape and its values in row-major order. */
  datatype Tensor = Tensor(shape: seq<nat>, data: seq<real>)

  /** Concatenation of the values of a list of tensors, in order. */
  function DataOf(ts: seq<Tensor>): (d: seq<real>)
    decreases |ts|
  {
    if ts == [] then [] else DataOf(ts[..|ts| - 1]) + ts[|ts| - 1].data
  }

  lemma {:induction false} DataOfAppend(xs: seq<Tensor>, ys: seq<Tensor>)
    ensures DataOf(xs + ys) == DataOf(xs) + DataOf(ys)
    decreases |ys|
  {
    if ys == [] {
      assert xs + ys == xs;
    } else {
      var ys' := ys[..|ys| - 1];
      assert (xs + ys)[..|xs + ys| - 1] == xs + ys';
      DataOfAppend(xs, ys');
    }
  }

  // ----- cutting a flat buffer into tensors ----------------------------------------------

  /** The number of values a tensor of shape `shape` holds. */
  function Size(shape: seq<nat>): nat
    decreases |shape|
  {
    if shape == [] then 1 else Size(shape[..|shape| - 1]) * shape[|shape| - 1]
  }

  /** The number of values tensors of the shapes `ss` hold together. */
  function TotalSize(ss: seq<seq<nat>>): nat
    decreases |ss|
  {
    if ss == [] then 0 else TotalSize(ss[..|ss| - 1]) + Size(ss[|ss| - 1])
  }

  /** Tensors of the shapes `ss` cut one after the other from `w`, starting at position `at`: each
      takes the next `Size(shape)` values, row-major, as `tf.tensor(values, shape)` does. */
  function TensorsAt(w: seq<real>, at: nat, ss: seq<seq<nat>>): seq<Tensor>
    requires at + TotalSize(ss) <= |w|
    decreases |ss|
  {
    if ss == [] then []
    else
      var b := at + TotalSize(ss[..|ss| - 1]);
      TensorsAt(w, at, ss[..|ss| - 1]) + [Tensor(ss[|ss| - 1], w[b..b + Size(ss[|ss| - 1])])]
  }

  lemma Size1(a: nat)
    ensures Size([a]) == a
  {
    assert [a][..0] == [];
  }

  lemma Size2(a: nat, b: nat)
    ensures Size([a, b]) == a * b
  {
    assert [a, b][..1] == [a];
    Size1(a);
  }

  lemma Size4(a: nat, b: nat, c: nat, d: nat)
    ensures Size([a, b, c, d]) == a * b * c * d
  {
    assert [a, b, c, d][..3] == [a, b, c] && [a, b, c][..2] == [a, b];
    Size2(a, b);
  }

  lemma TotalSize1(s0: seq<nat>)
    ensures TotalSize([s0]) == Size(s0)
  {
    assert [s0][..0] == [];
  }

  lemma TotalSize2(s0: seq<nat>, s1: seq<nat>)
    ensures TotalSize([s0, s1]) == Size(s0) + Size(s1)
  {
    assert [s0, s1][..1] == [s0];
    TotalSize1(s0);
  }

  lemma TotalSize3(s0: seq<nat>, s1: seq<nat>, s2: seq<nat>)
    ensures TotalSize([s0, s1, s2]) == Size(s0) + Size(s1) + Size(s2)
  {
    assert [s0, s1, s2][..2] == [s0, s1];
    TotalSize2(s0, s1);
  }

  lemma {:induction false} TotalSizeAppend(xs: seq<seq<nat>>, ys: seq<seq<nat>>)
    ensures TotalSize(xs + ys) == TotalSize(xs) + TotalSize(ys)
    decreases |ys|
  {
    if ys == [] {
      assert xs + ys == xs;
    } else {
      var ys' := ys[..|ys| - 1];
      assert (xs + ys)[..|xs + ys| - 1] == xs + ys';
      TotalSizeAppend(xs, ys');
    }
  }

  /** One more shape cuts one more tensor, from where the others end. */
  lemma TensorsAtSnoc(w: seq<real>, at: nat, ss: seq<seq<nat>>, s: seq<nat>)
    requires at + TotalSize(ss) + Size(s) <= |w|
    ensures TotalSize(ss + [s]) == TotalSize(ss) + Size(s)
    ensures TensorsAt(w, at, ss + [s]) == TensorsAt(w, at, ss) + [Tensor(s, w[at + TotalSize(ss)..at + TotalSize(ss) + Size(s)])]
  {
    assert (ss + [s])[..|ss|] == ss;
  }

  lemma TensorsAt2(w: seq<real>, at: nat, s0: seq<nat>, s1: seq<nat>)
    requires at + Size(s0) + Size(s1) <= |w|
    ensures TotalSize([s0, s1]) == Size(s0) + Size(s1)
    ensures TensorsAt(w, at, [s0, s1]) ==
      [Tensor(s0, w[at..at + Size(s0)]), Tensor(s1, w[at + Size(s0)..at + Size(s0) + Size(s1)])]
  {
    assert [s0][..0] == [];
    TensorsAtSnoc(w, at, [], s0);
    assert [] + [s0] == [s0];
    TensorsAtSnoc(w, at, [s0], s1);
    assert [s0] + [s1] == [s0, s1];
  }

  lemma TensorsAt3(w: seq<real>, at: nat, s0: seq<nat>, s1: seq<nat>, s2: seq<nat>)
    requires at + Size(s0) + Size(s1) + Size(s2) <= |w|
    ensures TotalSize([s0, s1, s2]) == Size(s0) + Size(s1) + Size(s2)
    ensures TensorsAt(w, at, [s0, s1, s2]) ==
      [ Tensor(s0, w[at..at + Size(s0)]), Tensor(s1, w[at + Size(s0)..at + Size(s0) + Size(s1)]),
        Tensor(s2, w[at + Size(s0) + Size(s1)..at + Size(s0) + Size(s1) + Size(s2)]) ]
  {
    TensorsAt2(w, at, s0, s1);
    TensorsAtSnoc(w, at, [s0, s1], s2);
    assert [s0, s1] + [s2] == [s0, s1, s2];
  }

  /** The tensors cut have exactly the shapes asked for, each with as many values as its shape holds. */
  lemma {:induction false} TensorsAtShapes(w: seq<real>, at: nat, ss: seq<seq<nat>>)
    requires at + TotalSize(ss) <= |w|
    ensures |TensorsAt(w, at, ss)| == |ss|
    ensures forall i | 0 <= i < |ss| :: TensorsAt(w, at, ss)[i].shape == ss[i] && |TensorsAt(w, at, ss)[i].data| == Size(ss[i])
    decreases |ss|
  {
    if ss != [] {
      TensorsAtShapes(w, at, ss[..|ss| - 1]);
    }
  }

  /** Cutting takes every value of the span, in order: nothing is skipped, repeated or reordered. */
  lemma {:induction false} TensorsAtData(w: seq<real>, at: nat, ss: seq<seq<nat>>)
    requires at + TotalSize(ss) <= |w|
    ensures DataOf(TensorsAt(w, at, ss)) == w[at..at + TotalSize(ss)]
    decreases |ss|
  {
    if ss == [] {
      assert w[at..at] == [];
    } else {
      var ss', s := ss[..|ss| - 1], ss[|ss| - 1];
      var b := at + TotalSize(ss');
      TensorsAtData(w, at, ss');
      var front, t := TensorsAt(w, at, ss'), Tensor(s, w[b..b + Size(s)]);
      assert TensorsAt(w, at, ss) == front + [t];
      assert (front + [t])[..|front + [t]| - 1] == front;
      assert DataOf(front + [t]) == DataOf(front) + t.data;
      SliceConcat(w, at, b, b + Size(s));
    }
  }

  /** The shapes of a list of tensors, in order. */
  function ShapesOf(ts: seq<Tensor>): (ss: seq<seq<nat>>)
    ensures |ss| == |ts|
  {
    seq(|ts|, i requires 0 <= i < |ts| => ts[i].shape)
  }

  /** Every tensor holds as many values as its shape says. */
  predicate WellSized(ts: seq<Tensor>) {
    forall i | 0 <= i < |ts| :: |ts[i].data| == Size(ts[i].shape)
  }

  /** `ts` are the tensors of shapes `ss` whose values, in order, are those of `w` from `at` on: what
      a cursor reading `ss` from position `at` produces. */
  predicate CutFrom(ts: seq<Tensor>, w: seq<real>, at: nat, ss: seq<seq<nat>>) {
    && ShapesOf(ts) == ss
    && WellSized(ts)
    && at + TotalSize(ss) <= |w|
    && DataOf(ts) == w[at..at + TotalSize(ss)]
  }

  lemma ShapesOfAppend(xs: seq<Tensor>, ys: seq<Tensor>)
    ensures ShapesOf(xs + ys) == ShapesOf(xs) + ShapesOf(ys)
  {
  }

  lemma {:induction false} DataOfLength(ts: seq<Tensor>)
    requires WellSized(ts)
    ensures |DataOf(ts)| == TotalSize(ShapesOf(ts))
    decreases |ts|
  {
    if ts != [] {
      var ts' := ts[..|ts| - 1];
      assert WellSized(ts');
      DataOfLength(ts');
      assert ShapesOf(ts)[..|ts| - 1] == ShapesOf(ts');
    }
  }

  lemma WellSizedAppend(xs: seq<Tensor>, ys: seq<Tensor>)
    requires WellSized(xs) && WellSized(ys)
    ensures WellSized(xs + ys)
  {
    forall i | 0 <= i < |xs + ys|
      ensures |(xs + ys)[i].data| == Size((xs + ys)[i].shape)
    {
      if i >= |xs| {
        assert (xs + ys)[i] == ys[i - |xs|];
      }
    }
  }

  lemma DataOfSpans(xs: seq<Tensor>, ys: seq<Tensor>, w: seq<real>, at: nat, b: nat, e: nat)
    requires at <= b <= e <= |w| && DataOf(xs) == w[at..b] && DataOf(ys) == w[b..e]
    ensures DataOf(xs + ys) == w[at..e]
  {
    DataOfAppend(xs, ys);
    SliceConcat(w, at, b, e);
  }

  /** Reading `xs` from `at` and then `ys` from where it ends, `mid`, reads `xs + ys` from `at`. */
  lemma CutFromAppend(xs: seq<Tensor>, ys: seq<Tensor>, w: seq<real>, at: nat, mid: nat, sx: seq<seq<nat>>, sy: seq<seq<nat>>)
    requires mid == at + TotalSize(sx)
    requires CutFrom(xs, w, at, sx) && CutFrom(ys, w, mid, sy)
    ensures TotalSize(sx + sy) == TotalSize(sx) + TotalSize(sy)
    ensures CutFrom(xs + ys, w, at, sx + sy)
  {
    ShapesOfAppend(xs, ys);
    TotalSizeAppend(sx, sy);
    WellSizedAppend(xs, ys);
    var e := mid + TotalSize(sy);
    DataOfSpans(xs, ys, w, at, mid, e);
    assert at + TotalSize(sx + sy) == e;
  }

  /** Three reads one after the other, the second from `p1` on and the third from `p2` on. */
  lemma CutFromAppend3(xs: seq<Tensor>, ys: seq<Tensor>, zs: seq<Tensor>, w: seq<real>, at: nat, p1: nat, p2: nat,
                       sx: seq<seq<nat>>, sy: seq<seq<nat>>, sz: seq<seq<nat>>)
    requires p1 == at + TotalSize(sx) && p2 == p1 + TotalSize(sy)
    requires CutFrom(xs, w, at, sx) && CutFrom(ys, w, p1, sy) && CutFrom(zs, w, p2, sz)
    ensures TotalSize(sx + sy + sz) == TotalSize(sx) + TotalSize(sy) + TotalSize(sz)
    ensures CutFrom(xs + ys + zs, w, at, sx + sy + sz)
  {
    CutFromAppend(xs, ys, w, at, p1, sx, sy);
    CutFromAppend(xs + ys, zs, w, at, p2, sx + sy, sz);
  }

  /** Two tensors whose values are the next two spans of `w`. */
  lemma CutFrom2(w: seq<real>, at: nat, t0: Tensor, t1: Tensor)
    requires at + Size(t0.shape) + Size(t1.shape) <= |w|
    requires t0.data == w[at..at + Size(t0.shape)]
    requires t1.data == w[at + Size(t0.shape)..at + Size(t0.shape) + Size(t1.shape)]
    ensures CutFrom([t0, t1], w, at, [t0.shape, t1.shape])
  {
    TensorsAt2(w, at, t0.shape, t1.shape);
    TensorsAtCutFrom(w, at, [t0.shape, t1.shape]);
  }

  /** Three tensors whose values are the next three spans of `w`. */
  lemma CutFrom3(w: seq<real>, at: nat, t0: Tensor, t1: Tensor, t2: Tensor)
    requires at + Size(t0.shape) + Size(t1.shape) + Size(t2.shape) <= |w|
    requires t0.data == w[at..at + Size(t0.shape)]
    requires t1.data == w[at + Size(t0.shape)..at + Size(t0.shape) + Size(t1.shape)]
    requires t2.data == w[at + Size(t0.shape) + Size(t1.shape)..at + Size(t0.shape) + Size(t1.shape) + Size(t2.shape)]
    ensures CutFrom([t0, t1, t2], w, at, [t0.shape, t1.shape, t2.shape])
  {
    TensorsAt3(w, at, t0.shape, t1.shape, t2.shape);
    TensorsAtCutFrom(w, at, [t0.shape, t1.shape, t2.shape]);
  }

  /** The tensors `TensorsAt` cuts fit the description. */
  lemma TensorsAtCutFrom(w: seq<real>, at: nat, ss: seq<seq<nat>>)
    requires at + TotalSize(ss) <= |w|
    ensures CutFrom(TensorsAt(w, at, ss), w, at, ss)
  {
    var ts := TensorsAt(w, at, ss);
    TensorsAtShapes(w, at, ss);
    TensorsAtData(w, at, ss);
  }

  /** The values of all tensors but the last, and of the last, split a span of `w` where the last
      tensor's values begin. */
  lemma DataOfInit(ts: seq<Tensor>, w: seq<real>, at: nat, e: nat)
    requires ts != [] && at + |ts[|ts| - 1].data| <= e <= |w|
    requires DataOf(ts) == w[at..e]
    ensures DataOf(ts[..|ts| - 1]) == w[at..e - |ts[|ts| - 1].data|]
    ensures ts[|ts| - 1].data == w[e - |ts[|ts| - 1].data|..e]
  {
    var d := ts[|ts| - 1].data;
    var b := e - |d|;
    SliceConcat(w, at, b, e);
    AppendCancel(DataOf(ts[..|ts| - 1]), d, w[at..b], w[b..e]);
  }

  lemma InitShapes(ts: seq<Tensor>, ss: seq<seq<nat>>)
    requires ShapesOf(ts) == ss && WellSized(ts) && ts != []
    ensures ss[..|ss| - 1] == ShapesOf(ts[..|ts| - 1]) && WellSized(ts[..|ts| - 1])
    ensures |ts[|ts| - 1].data| == Size(ss[|ss| - 1])
  {
  }

  lemma InitData(ts: seq<Tensor>, w: seq<real>, at: nat, ss: seq<seq<nat>>)
    requires ts != [] && ss != [] && |ts[|ts| - 1].data| == Size(ss[|ss| - 1])
    requires at + TotalSize(ss) <= |w| && DataOf(ts) == w[at..at + TotalSize(ss)]
    ensures DataOf(ts[..|ts| - 1]) == w[at..at + TotalSize(ss[..|ss| - 1])]
    ensures ts[|ts| - 1].data == w[at + TotalSize(ss[..|ss| - 1])..at + TotalSize(ss)]
  {
    DataOfInit(ts, w, at, at + TotalSize(ss));
  }

  /** Dropping the last tensor of a fitting list leaves a fitting list, one shape shorter. */
  lemma CutFromInit(ts: seq<Tensor>, w: seq<real>, at: nat, ss: seq<seq<nat>>)
    requires CutFrom(ts, w, at, ss) && ts != []
    ensures ss[..|ss| - 1] == ShapesOf(ts[..|ts| - 1])
    ensures CutFrom(ts[..|ts| - 1], w, at, ss[..|ss| - 1])
    ensures ts[|ts| - 1].data == w[at + TotalSize(ss[..|ss| - 1])..at + TotalSize(ss)]
  {
    InitShapes(ts, ss);
    InitData(ts, w, at, ss);
  }

  lemma TensorsAtLast(w: seq<real>, at: nat, ss: seq<seq<nat>>, front: seq<Tensor>, t: Tensor)
    requires ss != [] && at + TotalSize(ss) <= |w|
    requires front == TensorsAt(w, at, ss[..|ss| - 1])
    requires t.shape == ss[|ss| - 1] && t.data == w[at + TotalSize(ss[..|ss| - 1])..at + TotalSize(ss)]
    ensures front + [t] == TensorsAt(w, at, ss)
  {
  }

  /** Nothing else fits the description. */
  lemma {:induction false} CutFromUnique(ts: seq<Tensor>, w: seq<real>, at: nat, ss: seq<seq<nat>>)
    requires CutFrom(ts, w, at, ss)
    ensures ts == TensorsAt(w, at, ss)
    decreases |ts|
  {
    if ts != [] {
      var ts', t := ts[..|ts| - 1], ts[|ts| - 1];
      CutFromInit(ts, w, at, ss);
      CutFromUnique(ts', w, at, ss[..|ss| - 1]);
      TensorsAtLast(w, at, ss, ts', t);
      assert ts == ts' + [t];
    }
  }

  /** The tensors read from `at` as shapes `ss` are exactly `TensorsAt(w, at, ss)`. */
  lemma CutFromTensorsAt(ts: seq<Tensor>, w: seq<real>, at: nat, ss: seq<seq<nat>>)
    ensures CutFrom(ts, w, at, ss) <==> at + TotalSize(ss) <= |w| && ts == TensorsAt(w, at, ss)
  {
    if CutFrom(ts, w, at, ss) {
      CutFromUnique(ts, w, at, ss);
    }
    if at + TotalSize(ss) <= |w| && ts == TensorsAt(w, at, ss) {
      TensorsAtCutFrom(w, at, ss);
    }
  }

  /** Equal concatenations with equally long fronts have equal fronts and equal backs. */
  lemma AppendCancel<T>(a: seq<T>, b: seq<T>, c: seq<T>, d: seq<T>)
    requires a + b == c + d && |a| == |c|
    ensures a == c && b == d
  {
    assert a == (a + b)[..|a|] && c == (c + d)[..|a|];
    assert b == (a + b)[|a|..] && d == (c + d)[|a|..];
  }

  lemma AppendAssoc<T>(a: seq<T>, b: seq<T>, c: seq<T>)
    ensures a + b + c == a + (b + c)
  {
  }

  lemma AppendAssoc3<T>(a: seq<T>, b: seq<T>, c: seq<T>, d: seq<T>)
    ensures a + b + c + d == a + (b + c + d)
  {
  }

  lemma EmptyConcat<T>(s: seq<T>)
    ensures [] + s == s
  {
  }

  lemma Snoc3<T>(xs: seq<T>, a: T, b: T, c: T)
    ensures xs + [a] + [b] + [c] == xs + [a, b, c]
  {
  }

  lemma Snoc4<T>(xs: seq<T>, a: T, b: T, c: T, d: T)
    ensures xs + [a] + [b] + [c] + [d] == xs + [a, b, c, d]
  {
  }

  lemma SliceAll<T>(w: seq<T>)
    ensures w[0..|w|] == w
  {
  }

  lemma SliceToEnd<T>(w: seq<T>, a: nat)
    requires a <= |w|
    ensures w[a..|w|] == w[a..]
  {
  }

  /** Consecutive slices of a buffer concatenate to the slice spanning both. */
  lemma SliceConcat<T>(w: seq<T>, a: nat, b: nat, c: nat)
    requires a <= b <= c <= |w|
    ensures w[a..b] + w[b..c] == w[a..c]
  {
    assert forall i | 0 <= i < c - a :: (w[a..b] + w[b..c])[i] == w[a..c][i];
  }

  /** Three consecutive slices concatenate to the slice spanning them. */
  lemma SliceConcat3<T>(w: seq<T>, a: nat, b: nat, c: nat, d: nat)
    requires a <= b <= c <= d <= |w|
    ensures w[a..b] + w[b..c] + w[c..d] == w[a..d]
  {
    SliceConcat(w, a, b, c);
    SliceConcat(w, a, c, d);
  }

  /** `s.startsWith(p)`: a raw prefix test on the characters. */
  predicate StartsWith(s: string, p: string) {
    |p| <= |s| && s[..|p|] == p
  }

  /** The index `Array.prototype.slice` starts or ends at when given `i` on an array of length `len`:
      a negative index counts from the end, and the result is clamped to `[0, len]`. */
  function JsIndex(i: int, len: nat): (k: nat)
    ensures k <= len
    ensures 0 <= i <= len ==> k == i
    ensures i < 0 && len + i >= 0 ==> k == len + i
    ensures i < 0 && len + i < 0 ==> k == 0
  {
    if i < 0 then (if len + i < 0 then 0 else len + i) else if i > len then len else i
  }

  /** The decimal digit `d` as a character. */
  function DigitChar(d: nat): char
    requires d < 10
  {
    (48 + d) as char
  }

  /** The decimal rendering of a natural number, as a template literal `${n}` produces it. */
  function NatToString(n: nat): (s: string)
    ensures |s| >= 1
    ensures n < 10 <==> |s| == 1
  {
    if n < 10 then [DigitChar(n)] else NatToString(n / 10) + [DigitChar(n % 10)]
  }

  /** Distinct numbers render to distinct strings. */
  lemma {:induction false} NatToStringInjective(a: nat, b: nat)
    requires NatToString(a) == NatToString(b)
    ensures a == b
  {
    if a >= 10 && b >= 10 {
      var sa, sb := NatToString(a), NatToString(b);
      assert sa[|sa| - 1] == DigitChar(a % 10) && sb[|sb| - 1] == DigitChar(b % 10);
      assert sa[..|sa| - 1] == NatToString(a / 10);
      assert sb[..|sb| - 1] == NatToString(b / 10);
      NatToStringInjective(a / 10, b / 10);
    } else if a < 10 && b < 10 {
      assert NatToString(a)[0] == DigitChar(a) && NatToString(b)[0] == DigitChar(b);
    }
  }

  /** What a task method returns: the whole list for a batch input, the single item otherwise. */
  datatype Batched<+T> = Batch(items: seq<T>) | Single(item: T)

  /** `netInput.isBatchInput ? results : results[0]`. A non-batch input holds one image. */
  function Unwrap<T>(isBatchInput: bool, results: seq<T>): (r: Batched<T>)
    requires !isBatchInput ==> |results| >= 1
    ensures isBatchInput <==> r.Batch?
    ensures r.Batch? ==> r.items == results
    ensures r.Single? ==> r.item == results[0]
  {
    if isBatchInput then Batch(results) else Single(results[0])
  }
}
