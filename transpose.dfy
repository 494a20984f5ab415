/** The index mapping of `tf.transpose` on the row-major values of a tensor. Only the permutation
    of positions is modelled; the values themselves are never touched. */
module Transpose {

  /** Row-major position of element `[a][b]` of a tensor of shape `[_, nb]`. */
  function Index2(a: nat, b: nat, nb: nat): nat {
    a * nb + b
  }

  /** Row-major position of element `[a][b][c][d]` of a tensor of shape `[_, nb, nc, nd]`. */
  function Index4(a: nat, b: nat, c: nat, d: nat, nb: nat, nc: nat, nd: nat): nat {
    Index2(Index2(Index2(a, b, nb), c, nc), d, nd)
  }

  // ----- arithmetic on row-major positions -----------------------------------------------

  lemma MulMono(x: nat, y: nat, n: nat)
    requires x <= y
    ensures x * n <= y * n
  {
    var d := y - x;
    assert y * n == x * n + d * n;
  }

  /** A position built from an in-range row and column is below the size of the tensor. */
  lemma Index2Bound(a: nat, b: nat, na: nat, nb: nat)
    requires a < na && b < nb
    ensures Index2(a, b, nb) < na * nb
  {
    MulMono(a + 1, na, nb);
  }

  /** Row and column are recovered from a position by division and remainder. */
  lemma Index2DivMod(a: nat, b: nat, nb: nat)
    requires b < nb
    ensures Index2(a, b, nb) / nb == a && Index2(a, b, nb) % nb == b
  {
    var p := a * nb + b;
    var q, r := p / nb, p % nb;
    assert p == q * nb + r;
    if q < a {
      MulMono(q + 1, a, nb);
    } else if q > a {
      MulMono(a + 1, q, nb);
    }
  }

  /** Every position of a `[na, nb]` tensor is `Index2` of its row and column. */
  lemma Index2Split(p: nat, na: nat, nb: nat)
    requires p < na * nb
    ensures nb > 0 && p / nb < na && p == Index2(p / nb, p % nb, nb)
  {
    if p / nb >= na {
      MulMono(na, p / nb, nb);
    }
  }

  lemma Index4Bound(a: nat, b: nat, c: nat, d: nat, na: nat, nb: nat, nc: nat, nd: nat)
    requires a < na && b < nb && c < nc && d < nd
    ensures Index4(a, b, c, d, nb, nc, nd) < na * nb * nc * nd
  {
    Index2Bound(a, b, na, nb);
    Index2Bound(Index2(a, b, nb), c, na * nb, nc);
    Index2Bound(Index2(Index2(a, b, nb), c, nc), d, na * nb * nc, nd);
  }

  lemma Index4DivMod(a: nat, b: nat, c: nat, d: nat, nb: nat, nc: nat, nd: nat)
    requires b < nb && c < nc && d < nd
    ensures var p := Index4(a, b, c, d, nb, nc, nd);
      && p % nd == d
      && (p / nd) % nc == c
      && (p / nd / nc) % nb == b
      && p / nd / nc / nb == a
  {
    Index2DivMod(Index2(Index2(a, b, nb), c, nc), d, nd);
    Index2DivMod(Index2(a, b, nb), c, nc);
    Index2DivMod(a, b, nb);
  }

  // ----- [2, 3, 1, 0] on a [nF, depth, fs, fs] tensor ------------------------------------

  lemma ModBound(x: nat, d: nat)
    requires d > 0
    ensures x % d < d
  {
  }

  /** The coordinates of position `p` of a `[fs, fs, depth, nF]` tensor are in range. */
  lemma Split2310(p: nat, nF: nat, depth: nat, fs: nat)
    requires p < fs * fs * depth * nF
    ensures nF > 0 && depth > 0 && fs > 0
    ensures p / nF / depth / fs < fs
  {
    Index2Split(p, fs * fs * depth, nF);
    Index2Split(p / nF, fs * fs, depth);
    Index2Split(p / nF / depth, fs, fs);
  }

  /** For position `p` of the transposed `[fs, fs, depth, nF]` tensor, the position of the same element
      in the original `[nF, depth, fs, fs]` tensor. */
  function SourceIndex2310(p: nat, nF: nat, depth: nat, fs: nat): (s: nat)
    requires p < fs * fs * depth * nF
    ensures s < nF * depth * fs * fs
  {
    Split2310(p, nF, depth, fs);
    var q := p / nF;
    var r := q / depth;
    var f, k, j, i := p % nF, q % depth, r % fs, r / fs;
    ModBound(p, nF);
    ModBound(q, depth);
    ModBound(r, fs);
    Index4Bound(f, k, i, j, nF, depth, fs, fs);
    Index4(f, k, i, j, depth, fs, fs)
  }

  /** `tf.transpose(w, [2, 3, 1, 0])` for `w` of shape `[nF, depth, fs, fs]`. */
  function Transpose2310(w: seq<real>, nF: nat, depth: nat, fs: nat): (out: seq<real>)
    requires |w| == nF * depth * fs * fs
    ensures |out| == |w|
  {
    seq(|w|, p requires 0 <= p < |w| => w[SourceIndex2310(p, nF, depth, fs)])
  }

  lemma SourceIndex2310Of(i: nat, j: nat, k: nat, f: nat, nF: nat, depth: nat, fs: nat)
    requires i < fs && j < fs && k < depth && f < nF
    ensures Index4(i, j, k, f, fs, depth, nF) < fs * fs * depth * nF
    ensures SourceIndex2310(Index4(i, j, k, f, fs, depth, nF), nF, depth, fs) == Index4(f, k, i, j, depth, fs, fs)
  {
    Index4Bound(i, j, k, f, fs, fs, depth, nF);
    Index4DivMod(i, j, k, f, fs, depth, nF);
  }

  lemma Size2310(nF: nat, depth: nat, fs: nat)
    ensures fs * fs * depth * nF == nF * depth * fs * fs
  {
  }

  /** Element `[i][j][k][f]` of the transposed filters is element `[f][k][i][j]` of the filter-major
      values, i.e. `filters[i][j][k][f] = w[((f·depth + k)·fs + i)·fs + j]`. */
  lemma Transpose2310At(w: seq<real>, nF: nat, depth: nat, fs: nat, i: nat, j: nat, k: nat, f: nat)
    requires |w| == nF * depth * fs * fs
    requires i < fs && j < fs && k < depth && f < nF
    ensures Index4(i, j, k, f, fs, depth, nF) < |w| && Index4(f, k, i, j, depth, fs, fs) < |w|
    ensures Transpose2310(w, nF, depth, fs)[Index4(i, j, k, f, fs, depth, nF)] == w[Index4(f, k, i, j, depth, fs, fs)]
  {
    SourceIndex2310Of(i, j, k, f, nF, depth, fs);
    Index4Bound(f, k, i, j, nF, depth, fs, fs);
    Size2310(nF, depth, fs);
    var p := Index4(i, j, k, f, fs, depth, nF);
    assert p < |w|;
    assert Transpose2310(w, nF, depth, fs)[p] == w[SourceIndex2310(p, nF, depth, fs)];
  }

  // ----- [1, 0] on a [rows, cols] tensor --------------------------------------------------

  function SourceIndex10(p: nat, rows: nat, cols: nat): (s: nat)
    requires p < cols * rows
    ensures s < rows * cols
  {
    Index2Split(p, cols, rows);
    Index2Bound(p % rows, p / rows, rows, cols);
    Index2(p % rows, p / rows, cols)
  }

  /** `tf.transpose(w, [1, 0])` for `w` of shape `[rows, cols]`. */
  function Transpose10(w: seq<real>, rows: nat, cols: nat): (out: seq<real>)
    requires |w| == rows * cols
    ensures |out| == |w|
  {
    seq(|w|, p requires 0 <= p < |w| => w[SourceIndex10(p, rows, cols)])
  }

  lemma SourceIndex10Of(i: nat, j: nat, rows: nat, cols: nat)
    requires i < cols && j < rows
    ensures Index2(i, j, rows) < cols * rows && SourceIndex10(Index2(i, j, rows), rows, cols) == Index2(j, i, cols)
  {
    Index2Bound(i, j, cols, rows);
    Index2DivMod(i, j, rows);
  }

  /** Element `[i][j]` of the transposed matrix is element `[j][i]` of the original. */
  lemma Transpose10At(w: seq<real>, rows: nat, cols: nat, i: nat, j: nat)
    requires |w| == rows * cols && i < cols && j < rows
    ensures Index2(i, j, rows) < |w| && Index2(j, i, cols) < |w|
    ensures Transpose10(w, rows, cols)[Index2(i, j, rows)] == w[Index2(j, i, cols)]
  {
    SourceIndex10Of(i, j, rows, cols);
    Index2Bound(j, i, rows, cols);
    var p := Index2(i, j, rows);
    assert p < |w|;
    assert Transpose10(w, rows, cols)[p] == w[SourceIndex10(p, rows, cols)];
  }
}
