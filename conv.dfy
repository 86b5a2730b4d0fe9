// The windowed kernel (`word2vecConv`): column `i` of the word sequence W is
// paired with every neighbour `i + j`, `0 < |j| <= skip`, inside the
// sequence. The offsets are the raw entries of W (no `nrows` factor). Per
// column, every neighbour is scored first; then, offset by offset, the
// neighbour's column of A gains `cv` times B's column of word `i`, and B's
// column of word `i` gains `cv` times the neighbour's column of A as it was
// before that update, staged through the buffer Btmp, which is cleared for
// every offset.
//
// Times stands for no function of the C code: it names the product
// `cv * v`, so that the scatter loop's contracts speak of one term per cell
// and the solver does not have to match products of variables.

module WindowUpdate {
  import opened Squash
  import opened Embedding

  /** The kernel's arguments: `nrows` cells per column, `ncols` words, window half-width `skip`, word offsets `w`. */
  datatype Window = Window(nrows: nat, ncols: nat, skip: nat, w: seq<int>)
  {
    /** W holds the `ncols` offsets, each of a whole column inside both A and B. */
    predicate Fit(lenA: int, lenB: int) {
      ncols <= |w| && forall t :: 0 <= t < ncols ==> Fits(w[t], nrows, lenA) && Fits(w[t], nrows, lenB)
    }

    /** Offset `j` of column `i` names a neighbour: `j != 0 && i + j >= 0 && i + j < ncols`. */
    predicate Valid(i: nat, j: int) {
      j != 0 && 0 <= i + j < ncols
    }

    /** The number of offsets `-skip .. skip`, and the size of the scratch table C. */
    function Width(): nat {
      skip + skip + 1
    }
  }

  /** The score of a neighbour, `1 - logistic(dot)` with the clamped logistic as written: always in [0, 1]. */
  function ConvScore(exp: ExpFn, m: Embeddings, ia: int, ib: int, n: nat): (r: real)
    requires Fits(ia, n, |m.a|) && Fits(ib, n, |m.b|)
    ensures 0.0 <= r <= 1.0
    ensures Dot(m.a, ia, m.b, ib, n) > 16.0 ==> r == 0.0
    ensures Dot(m.a, ia, m.b, ib, n) < -16.0 ==> r == 1.0
  {
    1.0 - Logistic(exp, Dot(m.a, ia, m.b, ib, n))
  }

  /** The scratch table C of column `i`: entry `j + skip` is the score of offset `j` when it names a neighbour. */
  function ColumnScores(exp: ExpFn, m: Embeddings, win: Window, i: nat): (s: seq<real>)
    requires win.Fit(|m.a|, |m.b|) && i < win.ncols
    ensures |s| == win.Width()
    ensures forall t :: 0 <= t < |s| && win.Valid(i, t - win.skip) ==>
              s[t] == ConvScore(exp, m, win.w[i + (t - win.skip)], win.w[i], win.nrows)
  {
    seq(win.Width(), t requires 0 <= t < win.Width() =>
      if win.Valid(i, t - win.skip) then ConvScore(exp, m, win.w[i + (t - win.skip)], win.w[i], win.nrows) else 0.0)
  }

  /** `n` zeros: Btmp after it is cleared. */
  function Zeros(n: nat): (z: seq<real>)
    ensures |z| == n && forall c :: 0 <= c < n ==> z[c] == 0.0
  {
    seq(n, c => 0.0)
  }

  /** `x` after `x[ix + c] += v[c]` for every `c < n`. */
  function AddInto(x: seq<real>, ix: int, v: seq<real>, n: nat): (r: seq<real>)
    requires Fits(ix, n, |x|) && |v| == n
    ensures |r| == |x|
  {
    seq(|x|, p requires 0 <= p < |x| => if InColumn(p, ix, n) then x[p] + v[p - ix] else x[p])
  }

  /**
   * One offset `j` of column `i` with weight `cv`. For a neighbour at
   * `ia = w[i + j]`, with `ib = w[i]`: A's column at `ia` gains `cv` times B's
   * column at `ib`, and B's column at `ib` gains `cv` times A's column at
   * `ia` as it was BEFORE this offset. Any other offset changes nothing.
   */
  function OffsetStep(m: Embeddings, win: Window, i: nat, j: int, cv: real): (r: Embeddings)
    requires win.Fit(|m.a|, |m.b|) && i < win.ncols
    ensures |r.a| == |m.a| && |r.b| == |m.b|
  {
    if win.Valid(i, j) then
      var ia, ib, n := win.w[i + j], win.w[i], win.nrows;
      Embeddings(AddScaled(m.a, ia, cv, m.b, ib, n), AddScaled(m.b, ib, cv, m.a, ia, n))
    else
      m
  }

  /** Column `i` after its first `t` offsets `-skip .. t - 1 - skip`, offset `j` with weight `cvs[j + skip]`. */
  function Offsets(m: Embeddings, win: Window, i: nat, cvs: seq<real>, t: nat): (r: Embeddings)
    requires win.Fit(|m.a|, |m.b|) && i < win.ncols && t <= |cvs|
    ensures |r.a| == |m.a| && |r.b| == |m.b|
  {
    if t == 0 then m
    else OffsetStep(Offsets(m, win, i, cvs, t - 1), win, i, (t - 1) - win.skip, cvs[t - 1])
  }

  /** One iteration of the outer loop: score every neighbour from the state on entry, then run every offset. */
  function ConvColumn(exp: ExpFn, m: Embeddings, win: Window, lrate: real, i: nat): (r: Embeddings)
    requires win.Fit(|m.a|, |m.b|) && i < win.ncols
    ensures |r.a| == |m.a| && |r.b| == |m.b|
  {
    Offsets(m, win, i, Weighted(lrate, ColumnScores(exp, m, win, i)), win.Width())
  }

  /** The matrices after the first `n` columns, run in order. */
  function ConvKernel(exp: ExpFn, m: Embeddings, win: Window, lrate: real, n: nat): (r: Embeddings)
    requires win.Fit(|m.a|, |m.b|) && n <= win.ncols
    ensures |r.a| == |m.a| && |r.b| == |m.b|
  {
    if n == 0 then m else ConvColumn(exp, ConvKernel(exp, m, win, lrate, n - 1), win, lrate, n - 1)
  }

  // ---------------------------------------------------------------------
  // Properties.

  /** Adding a cleared Btmp leaves B as it was. */
  lemma AddZeros(x: seq<real>, ix: int, n: nat)
    requires Fits(ix, n, |x|)
    ensures AddInto(x, ix, Zeros(n), n) == x
  {
    assert forall p :: 0 <= p < |x| ==> AddInto(x, ix, Zeros(n), n)[p] == x[p];
  }

  /**
   * Staging through the cleared buffer Btmp: first `Btmp[c] += cv * y[iy + c]`,
   * then `x[ix + c] += Btmp[c]`, is the same as adding `cv * y[iy + c]` to
   * `x[ix + c]` directly, with `y` read before `x` changes.
   */
  lemma StagedAdd(x: seq<real>, ix: int, cv: real, y: seq<real>, iy: int, n: nat)
    requires Fits(ix, n, |x|) && Fits(iy, n, |y|)
    ensures AddInto(x, ix, AddScaled(Zeros(n), 0, cv, y, iy, n), n) == AddScaled(x, ix, cv, y, iy, n)
  {
    var btmp := AddScaled(Zeros(n), 0, cv, y, iy, n);
    forall p | 0 <= p < |x| ensures AddInto(x, ix, btmp, n)[p] == AddScaled(x, ix, cv, y, iy, n)[p] {
      if InColumn(p, ix, n) {
        assert InColumn(p - ix, 0, n);
      }
    }
  }

  /** Offsets that name no neighbour leave the state as it was. */
  lemma {:induction false} OffsetsWithoutNeighbours(m: Embeddings, win: Window, i: nat, cvs: seq<real>, t: nat)
    requires win.Fit(|m.a|, |m.b|) && i < win.ncols && t <= |cvs|
    requires forall j :: -(win.skip as int) <= j < t - win.skip ==> !win.Valid(i, j)
    ensures Offsets(m, win, i, cvs, t) == m
  {
    if t > 0 {
      OffsetsWithoutNeighbours(m, win, i, cvs, t - 1);
    }
  }

  /** A column none of whose offsets names a neighbour changes nothing. */
  lemma ColumnWithoutNeighbours(exp: ExpFn, m: Embeddings, win: Window, lrate: real, i: nat)
    requires win.Fit(|m.a|, |m.b|) && i < win.ncols
    requires forall j :: -(win.skip as int) <= j <= win.skip ==> !win.Valid(i, j)
    ensures ConvColumn(exp, m, win, lrate, i) == m
  {
    OffsetsWithoutNeighbours(m, win, i, Weighted(lrate, ColumnScores(exp, m, win, i)), win.Width());
  }

  /** With `skip == 0` the only offset is `j == 0`, which names no neighbour: the kernel changes nothing. */
  lemma ConvSkipZero(exp: ExpFn, m: Embeddings, win: Window, lrate: real, n: nat)
    requires win.Fit(|m.a|, |m.b|) && n <= win.ncols && win.skip == 0
    ensures ConvKernel(exp, m, win, lrate, n) == m
  {
    var k := 0;
    while k < n
      invariant k <= n && ConvKernel(exp, m, win, lrate, k) == m
    {
      ColumnWithoutNeighbours(exp, m, win, lrate, k);
      KernelStep(exp, m, win, lrate, k, m);
      k := k + 1;
    }
  }

  /** With a single word there is no neighbour: the kernel changes nothing. */
  lemma ConvSingleWord(exp: ExpFn, m: Embeddings, win: Window, lrate: real)
    requires win.Fit(|m.a|, |m.b|) && win.ncols == 1
    ensures ConvKernel(exp, m, win, lrate, 1) == m
  {
    ColumnWithoutNeighbours(exp, m, win, lrate, 0);
  }

  /** Cell `p` lies in none of the columns that W names. */
  predicate Outside(win: Window, p: int)
    requires win.ncols <= |win.w|
  {
    forall t :: 0 <= t < win.ncols ==> !InColumn(p, win.w[t], win.nrows)
  }

  /** Offsets change no cell of A or B outside the columns that W names. */
  lemma {:induction false} OffsetsFrame(m: Embeddings, win: Window, i: nat, cvs: seq<real>, t: nat, p: int)
    requires win.Fit(|m.a|, |m.b|) && i < win.ncols && t <= |cvs| && Outside(win, p)
    ensures 0 <= p < |m.a| ==> Offsets(m, win, i, cvs, t).a[p] == m.a[p]
    ensures 0 <= p < |m.b| ==> Offsets(m, win, i, cvs, t).b[p] == m.b[p]
  {
    if t > 0 {
      OffsetsFrame(m, win, i, cvs, t - 1, p);
      var prev := Offsets(m, win, i, cvs, t - 1);
      var j := (t - 1) - win.skip;
      assert !InColumn(p, win.w[i], win.nrows);
      if win.Valid(i, j) {
        assert !InColumn(p, win.w[i + j], win.nrows);
      }
    }
  }

  /** One column changes no cell of A or B outside the columns that W names. */
  lemma ColumnFrame(exp: ExpFn, m: Embeddings, win: Window, lrate: real, i: nat, p: int)
    requires win.Fit(|m.a|, |m.b|) && i < win.ncols && Outside(win, p)
    ensures 0 <= p < |m.a| ==> ConvColumn(exp, m, win, lrate, i).a[p] == m.a[p]
    ensures 0 <= p < |m.b| ==> ConvColumn(exp, m, win, lrate, i).b[p] == m.b[p]
  {
    OffsetsFrame(m, win, i, Weighted(lrate, ColumnScores(exp, m, win, i)), win.Width(), p);
  }

  /** The first `n + 1` columns are column `n` run after the first `n`. */
  lemma KernelStep(exp: ExpFn, m: Embeddings, win: Window, lrate: real, n: nat, prev: Embeddings)
    requires win.Fit(|m.a|, |m.b|) && n < win.ncols && prev == ConvKernel(exp, m, win, lrate, n)
    ensures ConvKernel(exp, m, win, lrate, n + 1) == ConvColumn(exp, prev, win, lrate, n)
  {
  }

  /** Running column `n` keeps a cell outside the columns that W names at its value on entry. */
  lemma KernelFrameStep(exp: ExpFn, m: Embeddings, win: Window, lrate: real, n: nat, p: int)
    requires win.Fit(|m.a|, |m.b|) && n < win.ncols && Outside(win, p)
    requires 0 <= p < |m.a| ==> ConvKernel(exp, m, win, lrate, n).a[p] == m.a[p]
    requires 0 <= p < |m.b| ==> ConvKernel(exp, m, win, lrate, n).b[p] == m.b[p]
    ensures 0 <= p < |m.a| ==> ConvKernel(exp, m, win, lrate, n + 1).a[p] == m.a[p]
    ensures 0 <= p < |m.b| ==> ConvKernel(exp, m, win, lrate, n + 1).b[p] == m.b[p]
  {
    ColumnFrame(exp, ConvKernel(exp, m, win, lrate, n), win, lrate, n, p);
  }

  /** The kernel changes no cell of A or B outside the columns that W names. */
  lemma ConvFrame(exp: ExpFn, m: Embeddings, win: Window, lrate: real, n: nat, p: int)
    requires win.Fit(|m.a|, |m.b|) && n <= win.ncols && Outside(win, p)
    ensures 0 <= p < |m.a| ==> ConvKernel(exp, m, win, lrate, n).a[p] == m.a[p]
    ensures 0 <= p < |m.b| ==> ConvKernel(exp, m, win, lrate, n).b[p] == m.b[p]
  {
    var k := 0;
    while k < n
      invariant k <= n
      invariant 0 <= p < |m.a| ==> ConvKernel(exp, m, win, lrate, k).a[p] == m.a[p]
      invariant 0 <= p < |m.b| ==> ConvKernel(exp, m, win, lrate, k).b[p] == m.b[p]
    {
      KernelFrameStep(exp, m, win, lrate, k, p);
      k := k + 1;
    }
  }

  // ---------------------------------------------------------------------
  // The kernel on the buffers.

  /**
   * `word2vecConv`, run column after column: A and B end as ConvKernel
   * says, from their values on entry.
   */
  method Word2vecConv(exp: ExpFn, nrows: nat, ncols: nat, skip: nat, W: array<int>, A: array<real>, B: array<real>, lrate: real)
    requires A != B
    requires Window(nrows, ncols, skip, W[..]).Fit(A.Length, B.Length)
    modifies A, B
    ensures Embeddings(A[..], B[..]) == ConvKernel(exp, Embeddings(old(A[..]), old(B[..])), Window(nrows, ncols, skip, W[..]), lrate, ncols)
  {
    var C := new real[2 * skip + 1];
    var Btmp := new real[nrows];
    RunColumns(exp, nrows, ncols, skip, W, A, B, C, Btmp, lrate, Window(nrows, ncols, skip, W[..]));
  }

  /** The outer loop of `word2vecConv`, over the columns `0 .. ncols - 1`, with the scratch buffers C and Btmp. */
  method RunColumns(exp: ExpFn, nrows: nat, ncols: nat, skip: nat, W: array<int>,
                    A: array<real>, B: array<real>, C: array<real>, Btmp: array<real>, lrate: real, ghost win: Window)
    requires A != B && C != A && C != B && Btmp != A && Btmp != B && Btmp != C
    requires win == Window(nrows, ncols, skip, W[..]) && C.Length == win.Width() && Btmp.Length == nrows
    requires win.Fit(A.Length, B.Length)
    modifies A, B, C, Btmp
    ensures Embeddings(A[..], B[..]) == ConvKernel(exp, Embeddings(old(A[..]), old(B[..])), win, lrate, ncols)
  {
    ghost var m0 := Embeddings(A[..], B[..]);
    for i := 0 to ncols
      invariant Embeddings(A[..], B[..]) == ConvKernel(exp, m0, win, lrate, i)
    {
      ConvColumnInPlace(exp, nrows, ncols, skip, i, W, A, B, C, Btmp, lrate, win, m0);
    }
  }

  /** One iteration of the outer loop of `word2vecConv`, with the scratch buffers C (2*skip+1 scores) and Btmp (nrows cells). */
  method ConvColumnInPlace(exp: ExpFn, nrows: nat, ncols: nat, skip: nat, i: nat, W: array<int>,
                           A: array<real>, B: array<real>, C: array<real>, Btmp: array<real>, lrate: real,
                           ghost win: Window, ghost m0: Embeddings)
    requires A != B && C != A && C != B && Btmp != A && Btmp != B && Btmp != C
    requires win == Window(nrows, ncols, skip, W[..]) && C.Length == win.Width() && Btmp.Length == nrows
    requires |m0.a| == A.Length && |m0.b| == B.Length && win.Fit(A.Length, B.Length) && i < ncols
    requires Embeddings(A[..], B[..]) == ConvKernel(exp, m0, win, lrate, i)
    modifies A, B, C, Btmp
    ensures Embeddings(A[..], B[..]) == ConvKernel(exp, m0, win, lrate, i + 1)
  {
    ghost var m := Embeddings(A[..], B[..]);
    ghost var scores := ColumnScores(exp, m, win, i);
    ScoreNeighbours(exp, nrows, ncols, skip, i, W, A, B, C, win, m, scores);
    RunOffsets(nrows, ncols, skip, i, W, A, B, C, Btmp, lrate, win, scores, Weighted(lrate, scores));
  }

  /** Second phase of a column: every offset `-skip .. skip` in turn, with the scores of the first phase in C. */
  method RunOffsets(nrows: nat, ncols: nat, skip: nat, i: nat, W: array<int>,
                    A: array<real>, B: array<real>, C: array<real>, Btmp: array<real>, lrate: real,
                    ghost win: Window, ghost scores: seq<real>, ghost cvs: seq<real>)
    requires A != B && C != A && C != B && Btmp != A && Btmp != B && Btmp != C
    requires win == Window(nrows, ncols, skip, W[..]) && C.Length == win.Width() && Btmp.Length == nrows
    requires win.Fit(A.Length, B.Length) && i < ncols && |scores| == win.Width()
    requires forall t :: 0 <= t < C.Length && win.Valid(i, t - skip) ==> C[t] == scores[t]
    requires cvs == Weighted(lrate, scores)
    modifies A, B, Btmp
    ensures Embeddings(A[..], B[..]) == Offsets(Embeddings(old(A[..]), old(B[..])), win, i, cvs, win.Width())
  {
    ghost var m := Embeddings(A[..], B[..]);
    for t := 0 to C.Length
      invariant Embeddings(A[..], B[..]) == Offsets(m, win, i, cvs, t)
    {
      OffsetInPlace(nrows, ncols, skip, i, t - skip, W, A, B, C, Btmp, lrate, win, scores, cvs);
    }
  }

  /** First phase of a column: `C[j + skip] = 1 - logistic(dot)` for every offset that names a neighbour. */
  method ScoreNeighbours(exp: ExpFn, nrows: nat, ncols: nat, skip: nat, i: nat, W: array<int>,
                         A: array<real>, B: array<real>, C: array<real>,
                         ghost win: Window, ghost m: Embeddings, ghost scores: seq<real>)
    requires C != A && C != B
    requires win == Window(nrows, ncols, skip, W[..]) && C.Length == win.Width()
    requires win.Fit(A.Length, B.Length) && i < ncols && m == Embeddings(A[..], B[..]) && |scores| == C.Length
    requires forall t :: 0 <= t < |scores| && win.Valid(i, t - skip) ==>
               scores[t] == ConvScore(exp, m, W[i + (t - skip)], W[i], nrows)
    modifies C
    ensures forall t :: 0 <= t < C.Length && win.Valid(i, t - skip) ==> C[t] == scores[t]
  {
    for j := -(skip as int) to skip + 1
      invariant forall t :: 0 <= t < j + skip && win.Valid(i, t - skip) ==> C[t] == scores[t]
    {
      assert (j + skip) - win.skip == j;
      ScoreOffset(exp, nrows, ncols, skip, i, j, W, A, B, C, win, m, scores);
    }
  }

  /** One offset `j` of the first phase: its entry of C is set when it names a neighbour, and no other entry changes. */
  method ScoreOffset(exp: ExpFn, nrows: nat, ncols: nat, skip: nat, i: nat, j: int, W: array<int>,
                     A: array<real>, B: array<real>, C: array<real>,
                     ghost win: Window, ghost m: Embeddings, ghost scores: seq<real>)
    requires C != A && C != B
    requires win == Window(nrows, ncols, skip, W[..]) && C.Length == win.Width()
    requires win.Fit(A.Length, B.Length) && i < ncols && -(skip as int) <= j <= skip && |scores| == C.Length
    requires m == Embeddings(A[..], B[..])
    requires win.Valid(i, j) ==> scores[j + skip] == ConvScore(exp, m, W[i + j], W[i], nrows)
    modifies C
    ensures win.Valid(i, j) ==> C[j + skip] == scores[j + skip]
    ensures forall t :: 0 <= t < C.Length && t != j + skip ==> C[t] == old(C[t])
  {
    if j != 0 && i + j >= 0 && i + j < ncols {
      var cv := ConvScoreOf(exp, nrows, A, W[i + j], B, W[i]);
      C[j + skip] := cv;
    }
  }

  /** The score of one neighbour: the dot product, clamped logistic, `1 - cv`. */
  method ConvScoreOf(exp: ExpFn, nrows: nat, A: array<real>, ia: int, B: array<real>, ib: int) returns (sc: real)
    requires Fits(ia, nrows, A.Length) && Fits(ib, nrows, B.Length)
    ensures sc == ConvScore(exp, Embeddings(A[..], B[..]), ia, ib, nrows)
  {
    var cv := ColumnDot(A, ia, B, ib, nrows);
    cv := Logistic(exp, cv);
    sc := 1.0 - cv;
  }

  /** One offset `j` of the second phase of column `i`. */
  method OffsetInPlace(nrows: nat, ncols: nat, skip: nat, i: nat, j: int, W: array<int>,
                       A: array<real>, B: array<real>, C: array<real>, Btmp: array<real>, lrate: real,
                       ghost win: Window, ghost scores: seq<real>, ghost cvs: seq<real>)
    requires A != B && C != A && C != B && Btmp != A && Btmp != B && Btmp != C
    requires win == Window(nrows, ncols, skip, W[..]) && C.Length == win.Width() && Btmp.Length == nrows
    requires win.Fit(A.Length, B.Length) && i < ncols && -(skip as int) <= j <= skip && |scores| == win.Width()
    requires win.Valid(i, j) ==> C[j + skip] == scores[j + skip]
    requires cvs == Weighted(lrate, scores)
    modifies A, B, Btmp
    ensures Embeddings(A[..], B[..]) == OffsetStep(Embeddings(old(A[..]), old(B[..])), win, i, j, cvs[j + skip])
  {
    ghost var a0, b0 := A[..], B[..];
    var ib := W[i];
    ZeroInPlace(Btmp, 0, nrows);
    assert Btmp[..] == Zeros(nrows);
    if j != 0 && i + j >= 0 && i + j < ncols {
      var ia := W[i + j];
      var cv := lrate * C[j + skip];
      assert cv == cvs[j + skip];
      ScatterPair(A, ia, B, ib, Btmp, cv, nrows);
      assert A[..] == AddScaled(a0, ia, cv, b0, ib, nrows);
      assert Btmp[..] == AddScaled(Zeros(nrows), 0, cv, a0, ia, nrows);
      StagedAdd(b0, ib, cv, a0, ia, nrows);
    } else {
      AddZeros(b0, ib, nrows);
    }
    AddIntoInPlace(B, ib, Btmp, nrows);
  }

  /** The product `cv * v`, named so that the scatter's contracts refer to one term per cell. */
  function Times(cv: real, v: real): real {
    cv * v
  }

  /** `for c < n: Btmp[c] += cv * A[c + ia]; A[c + ia] += cv * B[c + ib]`. */
  method ScatterPair(A: array<real>, ia: int, B: array<real>, ib: int, Btmp: array<real>, cv: real, n: nat)
    requires A != B && Btmp != A && Btmp != B && Btmp.Length == n
    requires Fits(ia, n, A.Length) && Fits(ib, n, B.Length)
    modifies A, Btmp
    ensures A[..] == AddScaled(old(A[..]), ia, cv, B[..], ib, n)
    ensures Btmp[..] == AddScaled(old(Btmp[..]), 0, cv, old(A[..]), ia, n)
  {
    ghost var a0, b0, t0 := A[..], B[..], Btmp[..];
    for c := 0 to n
      invariant B[..] == b0
      invariant A[..] == AddScaled(a0, ia, cv, b0, ib, c)
      invariant Btmp[..] == AddScaled(t0, 0, cv, a0, ia, c)
    {
      ScatterStep(a0, ia, cv, b0, ib, t0, c, A[..], Btmp[..], A[c + ia], Btmp[c], B[c + ib]);
      ScatterCell(A, ia, B, ib, Btmp, cv, c);
    }
  }

  /** Step `c` of the scatter: `Btmp[c] += cv * A[c + ia]`, then `A[c + ia] += cv * B[c + ib]`; no other cell changes. */
  method ScatterCell(A: array<real>, ia: int, B: array<real>, ib: int, Btmp: array<real>, cv: real, c: nat)
    requires A != B && Btmp != A && Btmp != B && c < Btmp.Length
    requires 0 <= c + ia < A.Length && 0 <= c + ib < B.Length
    modifies A, Btmp
    ensures A[..] == old(A[..])[c + ia := old(A[c + ia]) + Times(cv, old(B[c + ib]))]
    ensures Btmp[..] == old(Btmp[..])[c := old(Btmp[c]) + Times(cv, old(A[c + ia]))]
  {
    Btmp[c] := Btmp[c] + cv * A[c + ia];
    A[c + ia] := A[c + ia] + cv * B[c + ib];
  }

  /**
   * One step of the scatter, on snapshots `ac` and `tc` of A and Btmp and
   * the cells `x = A[c + ia]`, `y = Btmp[c]`, `z = B[c + ib]` read from them:
   * both AddScaled sums grow by cell `c`.
   */
  lemma ScatterStep(a0: seq<real>, ia: int, cv: real, b0: seq<real>, ib: int, t0: seq<real>, c: nat,
                    ac: seq<real>, tc: seq<real>, x: real, y: real, z: real)
    requires Fits(ia, c + 1, |a0|) && Fits(ib, c + 1, |b0|) && c < |t0|
    requires ac == AddScaled(a0, ia, cv, b0, ib, c) && tc == AddScaled(t0, 0, cv, a0, ia, c)
    requires x == ac[c + ia] && y == tc[c] && z == b0[c + ib]
    ensures ac[c + ia := x + Times(cv, z)] == AddScaled(a0, ia, cv, b0, ib, c + 1)
    ensures tc[c := y + Times(cv, x)] == AddScaled(t0, 0, cv, a0, ia, c + 1)
  {
    var a1, t1 := AddScaled(a0, ia, cv, b0, ib, c + 1), AddScaled(t0, 0, cv, a0, ia, c + 1);
    assert x == a0[c + ia];
    forall p | 0 <= p < |a0| ensures ac[c + ia := x + Times(cv, z)][p] == a1[p] {
      if p == c + ia {
        assert p - ia == c;
      }
    }
    forall p | 0 <= p < |t0| ensures tc[c := y + Times(cv, x)][p] == t1[p] {
      if p == c {
        assert ia + (p - 0) == c + ia;
      }
    }
    assert ac[c + ia := x + Times(cv, z)] == a1;
    assert tc[c := y + Times(cv, x)] == t1;
  }

  /** `for c < n: B[c + ib] += Btmp[c]`. */
  method AddIntoInPlace(B: array<real>, ib: int, Btmp: array<real>, n: nat)
    requires B != Btmp && Btmp.Length == n && Fits(ib, n, B.Length)
    modifies B
    ensures B[..] == AddInto(old(B[..]), ib, Btmp[..], n)
  {
    for c := 0 to n
      invariant forall p :: 0 <= p < B.Length ==>
                  B[p] == if InColumn(p, ib, c) then old(B[p]) + Btmp[p - ib] else old(B[p])
    {
      B[c + ib] := B[c + ib] + Btmp[c];
    }
    assert forall p :: 0 <= p < B.Length ==> B[..][p] == AddInto(old(B[..]), ib, Btmp[..], n)[p];
  }
}
