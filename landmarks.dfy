/** The post-processing of the 68-point landmark nets. The network sees each image scaled so that
    its longer side is `inputSize` and padded to a square, centred; its 136 outputs are the x and y
    of each point, interleaved, relative to that square. `postProcess` undoes the padding and the
    scaling and gives each coordinate relative to the image's own width and height;
    `detectLandmarks` splits the interleaved values into 68 points. Arithmetic is on `real`. */
module Landmarks {
  import opened Common

  /** `{ width, height }` */
  datatype Dimensions = Dimensions(width: real, height: real)

  datatype Point = Point(x: real, y: real)

  /** The 68 points of one face, with the size of the image they were found in. */
  datatype FaceLandmarks68 = FaceLandmarks68(positions: seq<Point>, imageDims: Dimensions)

  predicate Positive(d: Dimensions) {
    d.width > 0.0 && d.height > 0.0
  }

  function Max(a: real, b: real): real {
    if a >= b then a else b
  }

  function Abs(a: real): real {
    if a < 0.0 then -a else a
  }

  /** `scale = inputSize / Math.max(height, width)`, then `{ width·scale, height·scale }`: the longer
      side becomes `inputSize` and the aspect ratio is kept. */
  function ScaledDimensions(inputSize: real, d: Dimensions): (s: Dimensions)
    requires Positive(d)
    ensures inputSize >= 0.0 ==> Max(s.width, s.height) == inputSize
    ensures s.width * d.height == s.height * d.width
    ensures inputSize > 0.0 ==> Positive(s)
  {
    var m := Max(d.height, d.width);
    var scale := inputSize / m;
    assert scale * m == inputSize;
    assert inputSize >= 0.0 ==> scale >= 0.0;
    assert inputSize > 0.0 ==> scale > 0.0;
    ScaleOrder(d.width, d.height, scale);
    ScaleMax(d.width, d.height, scale);
    Dimensions(d.width * scale, d.height * scale)
  }

  /** Scaling by a non-negative factor scales the longer side. */
  lemma ScaleMax(w: real, h: real, scale: real)
    ensures scale >= 0.0 ==> Max(w * scale, h * scale) == Max(h, w) * scale
  {
    if scale >= 0.0 {
      ScaleOrder(w, h, scale);
      if w >= h {
        if h >= w {
          assert h == w;
        }
        assert Max(h, w) == w;
      } else {
        assert Max(h, w) == h;
      }
    }
  }

  /** Scaling by a non-negative factor keeps the order of the sides. */
  lemma ScaleOrder(a: real, b: real, scale: real)
    ensures scale >= 0.0 && a >= b ==> a * scale >= b * scale
    ensures scale >= 0.0 && a < b ==> a * scale <= b * scale
    ensures scale > 0.0 && a > 0.0 ==> a * scale > 0.0
    ensures scale > 0.0 && b > 0.0 ==> b * scale > 0.0
  {
    if scale >= 0.0 {
      if a >= b {
        assert a * scale - b * scale == (a - b) * scale;
      } else {
        assert b * scale - a * scale == (b - a) * scale;
      }
    }
  }

  /** `getPaddingX`: half the difference of the sides when the scaled image is taller than wide. */
  function PaddingX(s: Dimensions): real {
    if s.width < s.height then Abs(s.width - s.height) / 2.0 else 0.0
  }

  /** `getPaddingY`: half the difference of the sides when the scaled image is wider than tall. */
  function PaddingY(s: Dimensions): real {
    if s.height < s.width then Abs(s.width - s.height) / 2.0 else 0.0
  }

  /** Only the shorter side is padded, by as much on each side as makes the image square; a square
      image is not padded. */
  lemma PaddingSquares(s: Dimensions)
    ensures PaddingX(s) == 0.0 || PaddingY(s) == 0.0
    ensures s.width == s.height ==> PaddingX(s) == 0.0 && PaddingY(s) == 0.0
    ensures s.width + 2.0 * PaddingX(s) == Max(s.width, s.height)
    ensures s.height + 2.0 * PaddingY(s) == Max(s.width, s.height)
  {
  }

  /** `createInterleavedTensor(fillX, fillY)`: `[fillX, fillY, fillX, fillY, …]`, 136 values. */
  function Interleaved(fillX: real, fillY: real): (t: seq<real>)
    ensures |t| == 136
  {
    seq(136, k requires 0 <= k < 136 => if k % 2 == 0 then fillX else fillY)
  }

  /** One coordinate of `postProcess`: `(v · inputSize − padding) / size`. */
  function Restore(v: real, inputSize: real, padding: real, size: real): real
    requires size != 0.0
  {
    (v * inputSize - padding) / size
  }

  /** Where the network sees a coordinate `v` given relative to the image: scaled to the image's
      size in the square, shifted by the padding, as a fraction of `inputSize`. */
  function Letterbox(v: real, inputSize: real, padding: real, size: real): real
    requires inputSize != 0.0
  {
    (v * size + padding) / inputSize
  }

  /** Letterboxing a coordinate and restoring it gives it back. */
  lemma {:induction false} RestoreLetterbox(v: real, inputSize: real, padding: real, size: real)
    requires inputSize > 0.0 && size > 0.0
    ensures Restore(Letterbox(v, inputSize, padding, size), inputSize, padding, size) == v
  {
    var t := v * size + padding;
    assert (t / inputSize) * inputSize == t;
    assert (t - padding) / size == v;
  }

  /** One row of `postProcess`: `output · inputSize`, minus the interleaved paddings, divided by
      the interleaved scaled sizes, elementwise. */
  function PostProcessRow(row: seq<real>, inputSize: real, d: Dimensions): (r: seq<real>)
    requires |row| == 136 && Positive(d) && inputSize > 0.0
    ensures |r| == 136
  {
    var s := ScaledDimensions(inputSize, d);
    var padding := Interleaved(PaddingX(s), PaddingY(s));
    var size := Interleaved(s.width, s.height);
    assert forall k | 0 <= k < 136 :: size[k] > 0.0;
    seq(136, k requires 0 <= k < 136 => Restore(row[k], inputSize, padding[k], size[k]))
  }

  /** Point `k` of a post-processed row: its x is restored against the scaled width and the
      horizontal padding, its y against the scaled height and the vertical padding. */
  lemma PostProcessRowAt(row: seq<real>, inputSize: real, d: Dimensions)
    requires |row| == 136 && Positive(d) && inputSize > 0.0
    ensures forall k | 0 <= k < 68 ::
      var s := ScaledDimensions(inputSize, d);
      && PostProcessRow(row, inputSize, d)[2 * k] == (row[2 * k] * inputSize - PaddingX(s)) / s.width
      && PostProcessRow(row, inputSize, d)[2 * k + 1] == (row[2 * k + 1] * inputSize - PaddingY(s)) / s.height
  {
    var s := ScaledDimensions(inputSize, d);
    var padding := Interleaved(PaddingX(s), PaddingY(s));
    var size := Interleaved(s.width, s.height);
    var r := PostProcessRow(row, inputSize, d);
    forall k | 0 <= k < 68
      ensures r[2 * k] == (row[2 * k] * inputSize - PaddingX(s)) / s.width
      ensures r[2 * k + 1] == (row[2 * k + 1] * inputSize - PaddingY(s)) / s.height
    {
      assert padding[2 * k] == PaddingX(s) && size[2 * k] == s.width;
      assert padding[2 * k + 1] == PaddingY(s) && size[2 * k + 1] == s.height;
    }
  }

  /** `postProcess(output, inputSize, originalDimensions)` over a batch `[batchSize, 136]`. */
  function PostProcess(output: seq<seq<real>>, inputSize: real, originalDimensions: seq<Dimensions>): (r: seq<seq<real>>)
    requires |output| == |originalDimensions| && inputSize > 0.0
    requires forall b | 0 <= b < |output| :: |output[b]| == 136 && Positive(originalDimensions[b])
    ensures |r| == |output|
    ensures forall b | 0 <= b < |r| :: r[b] == PostProcessRow(output[b], inputSize, originalDimensions[b])
  {
    seq(|output|, b requires 0 <= b < |output| => PostProcessRow(output[b], inputSize, originalDimensions[b]))
  }

  /** The row the network outputs for landmarks given relative to the image. */
  function Letterboxed(rel: seq<real>, inputSize: real, d: Dimensions): (row: seq<real>)
    requires |rel| == 136 && Positive(d) && inputSize > 0.0
    ensures |row| == 136
  {
    var s := ScaledDimensions(inputSize, d);
    var padding := Interleaved(PaddingX(s), PaddingY(s));
    var size := Interleaved(s.width, s.height);
    seq(136, k requires 0 <= k < 136 => Letterbox(rel[k], inputSize, padding[k], size[k]))
  }

  /** Post-processing recovers exactly the relative coordinates the network was shown. */
  lemma PostProcessLetterboxed(rel: seq<real>, inputSize: real, d: Dimensions)
    requires |rel| == 136 && Positive(d) && inputSize > 0.0
    ensures PostProcessRow(Letterboxed(rel, inputSize, d), inputSize, d) == rel
  {
    var s := ScaledDimensions(inputSize, d);
    var padding := Interleaved(PaddingX(s), PaddingY(s));
    var size := Interleaved(s.width, s.height);
    var row := Letterboxed(rel, inputSize, d);
    var r := PostProcessRow(row, inputSize, d);
    forall k | 0 <= k < 136
      ensures r[k] == rel[k]
    {
      assert size[k] > 0.0;
      RestoreLetterbox(rel[k], inputSize, padding[k], size[k]);
    }
  }

  /** A coordinate half-way along a side padded to the square's side lands half-way across it. */
  lemma LetterboxCentre(inputSize: real, padding: real, size: real)
    requires inputSize > 0.0 && size + 2.0 * padding == inputSize
    ensures Letterbox(0.5, inputSize, padding, size) == 0.5
  {
    assert 0.5 * size + padding == 0.5 * inputSize;
    assert (0.5 * inputSize) / inputSize == 0.5;
  }

  /** The centre of the network's square is the centre of the image, whatever its aspect ratio. */
  lemma CentreStaysCentre(row: seq<real>, inputSize: real, d: Dimensions)
    requires |row| == 136 && Positive(d) && inputSize > 0.0
    requires forall k | 0 <= k < 136 :: row[k] == 0.5
    ensures forall k | 0 <= k < 136 :: PostProcessRow(row, inputSize, d)[k] == 0.5
  {
    var centre := seq(136, k requires 0 <= k < 136 => 0.5);
    var s := ScaledDimensions(inputSize, d);
    var padding := Interleaved(PaddingX(s), PaddingY(s));
    var size := Interleaved(s.width, s.height);
    PaddingSquares(s);
    forall k | 0 <= k < 136
      ensures Letterboxed(centre, inputSize, d)[k] == row[k]
    {
      if k % 2 == 0 {
        assert size[k] == s.width && padding[k] == PaddingX(s);
      } else {
        assert size[k] == s.height && padding[k] == PaddingY(s);
      }
      LetterboxCentre(inputSize, padding[k], size[k]);
    }
    assert Letterboxed(centre, inputSize, d) == row;
    PostProcessLetterboxed(centre, inputSize, d);
  }

  // ----- de-interleaving ------------------------------------------------------------------

  /** The values at indices `start`, `start + 2`, `start + 4`, …: `filter((_, i) => isEven(i))`
      from 0, and its odd counterpart from 1. */
  function EveryOther(a: seq<real>, start: nat): (r: seq<real>)
    decreases |a| - start
  {
    if start >= |a| then [] else [a[start]] + EveryOther(a, start + 2)
  }

  lemma {:induction false} EveryOtherAt(a: seq<real>, start: nat)
    requires start <= |a|
    ensures |EveryOther(a, start)| == (|a| - start + 1) / 2
    ensures forall i | 0 <= i < |EveryOther(a, start)| :: EveryOther(a, start)[i] == a[start + 2 * i]
    decreases |a| - start
  {
    var r := EveryOther(a, start);
    if start + 2 <= |a| {
      var rest := EveryOther(a, start + 2);
      EveryOtherAt(a, start + 2);
      assert r == [a[start]] + rest;
      assert (|a| - start + 1) / 2 == (|a| - (start + 2) + 1) / 2 + 1;
      forall i | 1 <= i < |r|
        ensures r[i] == a[start + 2 * i]
      {
        assert r[i] == rest[i - 1];
        assert start + 2 + 2 * (i - 1) == start + 2 * i;
      }
    } else if start < |a| {
      assert EveryOther(a, start + 2) == [];
      assert r == [a[start]];
      assert |a| - start + 1 == 2;
    } else {
      assert r == [];
    }
  }

  /** `Array(68).fill(0).map((_, i) => new Point(xCoords[i], yCoords[i]))` */
  function Positions(landmarks: seq<real>): (ps: seq<Point>)
    requires |landmarks| == 2 * 68
    ensures |ps| == 68
    ensures forall i | 0 <= i < 68 :: ps[i] == Point(landmarks[2 * i], landmarks[2 * i + 1])
  {
    var xs, ys := EveryOther(landmarks, 0), EveryOther(landmarks, 1);
    EveryOtherAt(landmarks, 0);
    EveryOtherAt(landmarks, 1);
    seq(68, i requires 0 <= i < 68 => Point(xs[i], ys[i]))
  }

  /** Writing the points back as `x0, y0, x1, y1, …` gives the network's values again. */
  lemma PositionsInterleave(landmarks: seq<real>)
    requires |landmarks| == 2 * 68
    ensures seq(136, k requires 0 <= k < 136 =>
      if k % 2 == 0 then Positions(landmarks)[k / 2].x else Positions(landmarks)[k / 2].y) == landmarks
  {
    var ps := Positions(landmarks);
    forall k | 0 <= k < 136
      ensures (if k % 2 == 0 then ps[k / 2].x else ps[k / 2].y) == landmarks[k]
    {
      assert k == 2 * (k / 2) + k % 2;
    }
  }

  /** `detectLandmarks(input)` from the network output of a batch: each row post-processed against
      its image and split into 68 points, the list for a batch input and its only item otherwise. */
  function DetectLandmarks(isBatchInput: bool, output: seq<seq<real>>, inputSize: real, inputDimensions: seq<Dimensions>)
    : (r: Batched<FaceLandmarks68>)
    requires |output| == |inputDimensions| && inputSize > 0.0
    requires forall b | 0 <= b < |output| :: |output[b]| == 136 && Positive(inputDimensions[b])
    requires !isBatchInput ==> |output| >= 1
    ensures isBatchInput <==> r.Batch?
    ensures r.Batch? ==> |r.items| == |output|
    ensures r.Batch? ==> forall b | 0 <= b < |output| ::
      r.items[b] == FaceLandmarks68(Positions(PostProcessRow(output[b], inputSize, inputDimensions[b])), inputDimensions[b])
    ensures r.Single? ==>
      r.item == FaceLandmarks68(Positions(PostProcessRow(output[0], inputSize, inputDimensions[0])), inputDimensions[0])
  {
    var rows := PostProcess(output, inputSize, inputDimensions);
    var results := seq(|rows|, b requires 0 <= b < |rows| => FaceLandmarks68(Positions(rows[b]), inputDimensions[b]));
    Unwrap(isBatchInput, results)
  }
}
