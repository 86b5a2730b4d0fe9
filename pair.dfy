// The batched pair update (`word2vec`): per column, score every (context,
// paired) combination into a scratch buffer, then add into the context
// columns of A, then add into the paired columns of B reading the A that the
// first pass has just updated.
//
// NewScoreTable stands for the `malloc` of the score table; it is a method of
// its own so that the size `nwa*nwb`, a product of two variables, is tied to
// the repeated-addition form `Scale` once.

module PairUpdate {
  import opened Squash
  import opened Embedding

  /** The stored score of one combination, `-logistic(dot)` of its two columns: always in [-1, 0]. */
  function PairScore(exp: ExpFn, m: Embeddings, ia: int, ib: int, n: nat): (r: real)
    requires Fits(ia, n, |m.a|) && Fits(ib, n, |m.b|)
    ensures -1.0 <= r <= 0.0
  {
    -Logistic(exp, Dot(m.a, ia, m.b, ib, n))
  }

  /**
   * The score table of one column, as the first phase leaves it in C:
   * entry `[j][k]` is the score of context column `aoffs[j]` with paired
   * column `boffs[k]`, all taken from the same state `m`.
   */
  function Scores(exp: ExpFn, m: Embeddings, aoffs: seq<int>, boffs: seq<int>, n: nat): (s: seq<seq<real>>)
    requires AllFit(aoffs, n, |m.a|) && AllFit(boffs, n, |m.b|)
    ensures Rows(s, |aoffs|, |boffs|)
    ensures forall j, k :: 0 <= j < |aoffs| && 0 <= k < |boffs| ==> s[j][k] == PairScore(exp, m, aoffs[j], boffs[k], n)
  {
    seq(|aoffs|, j requires 0 <= j < |aoffs| =>
      seq(|boffs|, k requires 0 <= k < |boffs| => PairScore(exp, m, aoffs[j], boffs[k], n)))
  }

  /**
   * `scores` is the score table of state `m`. The link to PairScore is only
   * drawn where a PairScore term is at hand, so the loops that merely move
   * scores around never unfold the logistic.
   */
  predicate ScoresOf(exp: ExpFn, m: Embeddings, aoffs: seq<int>, boffs: seq<int>, n: nat, scores: seq<seq<real>>)
    requires AllFit(aoffs, n, |m.a|) && AllFit(boffs, n, |m.b|)
  {
    Rows(scores, |aoffs|, |boffs|)
    && forall j, k {:trigger PairScore(exp, m, aoffs[j], boffs[k], n)} :: 0 <= j < |aoffs| && 0 <= k < |boffs| ==>
         scores[j][k] == PairScore(exp, m, aoffs[j], boffs[k], n)
  }

  /**
   * One column of the batch, given the offsets of its context columns in A,
   * of its paired columns in B, and its score table: the A pass reads the old
   * B, the B pass reads the A that the A pass left.
   */
  function PairStep(m: Embeddings, aoffs: seq<int>, boffs: seq<int>, scores: seq<seq<real>>, n: nat, lrate: real): (r: Embeddings)
    requires AllFit(aoffs, n, |m.a|) && AllFit(boffs, n, |m.b|) && Rows(scores, |aoffs|, |boffs|)
    ensures |r.a| == |m.a| && |r.b| == |m.b|
  {
    var a1 := Accumulate(m.a, m.b, aoffs, boffs, ARows(scores, |aoffs|, |boffs|, lrate), n, |aoffs|);
    var b1 := Accumulate(m.b, a1, boffs, aoffs, BRows(scores, |aoffs|, |boffs|, lrate), n, |boffs|);
    Embeddings(a1, b1)
  }

  /** One iteration of the outer loop: the step on the offsets `nrows * WA[j + i*nwa]` and `nrows * WB[k + i*nwb]`. */
  function PairColumn(exp: ExpFn, m: Embeddings, bt: Batch, lrate: real, i: nat): (r: Embeddings)
    requires bt.Fit(|m.a|, |m.b|) && i < bt.ncols
    ensures |r.a| == |m.a| && |r.b| == |m.b|
  {
    bt.OffsetsFit(|m.a|, |m.b|, i);
    var aoffs, boffs := bt.AOffsets(i), bt.BOffsets(i);
    PairStep(m, aoffs, boffs, Scores(exp, m, aoffs, boffs, bt.nrows), bt.nrows, lrate)
  }

  /** The matrices after the first `n` columns, run in order. */
  function PairKernel(exp: ExpFn, m: Embeddings, bt: Batch, lrate: real, n: nat): (r: Embeddings)
    requires bt.Fit(|m.a|, |m.b|) && n <= bt.ncols
    ensures |r.a| == |m.a| && |r.b| == |m.b|
  {
    if n == 0 then m else PairColumn(exp, PairKernel(exp, m, bt, lrate, n - 1), bt, lrate, n - 1)
  }

  /**
   * Additive semantics of one column: every cell of A gains what the context
   * slots covering it add (weights times the old B columns), and every cell of
   * B gains what the paired slots covering it add (weights times the NEW A).
   */
  lemma PairStepAdds(m: Embeddings, aoffs: seq<int>, boffs: seq<int>, scores: seq<seq<real>>, n: nat, lrate: real, p: int, q: int)
    requires AllFit(aoffs, n, |m.a|) && AllFit(boffs, n, |m.b|) && Rows(scores, |aoffs|, |boffs|)
    requires 0 <= p < |m.a| && 0 <= q < |m.b|
    ensures PairStep(m, aoffs, boffs, scores, n, lrate).a[p]
            == m.a[p] + Contribution(m.b, aoffs, boffs, ARows(scores, |aoffs|, |boffs|, lrate), n, |aoffs|, p)
    ensures PairStep(m, aoffs, boffs, scores, n, lrate).b[q]
            == m.b[q] + Contribution(PairStep(m, aoffs, boffs, scores, n, lrate).a, boffs, aoffs,
                                     BRows(scores, |aoffs|, |boffs|, lrate), n, |boffs|, q)
  {
    var r := PairStep(m, aoffs, boffs, scores, n, lrate);
    AccumulateAt(m.a, m.b, aoffs, boffs, ARows(scores, |aoffs|, |boffs|, lrate), n, |aoffs|, p);
    AccumulateAt(m.b, r.a, boffs, aoffs, BRows(scores, |aoffs|, |boffs|, lrate), n, |boffs|, q);
  }

  /** With no context columns or no paired columns, a step changes neither matrix. */
  lemma PairStepNoPairs(m: Embeddings, aoffs: seq<int>, boffs: seq<int>, scores: seq<seq<real>>, n: nat, lrate: real)
    requires AllFit(aoffs, n, |m.a|) && AllFit(boffs, n, |m.b|) && Rows(scores, |aoffs|, |boffs|)
    requires |aoffs| == 0 || |boffs| == 0
    ensures PairStep(m, aoffs, boffs, scores, n, lrate) == m
  {
    var arows, brows := ARows(scores, |aoffs|, |boffs|, lrate), BRows(scores, |aoffs|, |boffs|, lrate);
    if |boffs| == 0 {
      AccumulateWithoutSources(m.a, m.b, aoffs, boffs, arows, n, |aoffs|);
    } else {
      var a1 := Accumulate(m.a, m.b, aoffs, boffs, arows, n, |aoffs|);
      AccumulateWithoutSources(m.b, a1, boffs, aoffs, brows, n, |boffs|);
    }
  }

  /** With `nwa == 0` or `nwb == 0` the whole kernel leaves A and B as they were. */
  lemma {:induction false} PairKernelNoPairs(exp: ExpFn, m: Embeddings, bt: Batch, lrate: real, n: nat)
    requires bt.Fit(|m.a|, |m.b|) && n <= bt.ncols
    requires bt.nwa == 0 || bt.nwb == 0
    ensures PairKernel(exp, m, bt, lrate, n) == m
  {
    if n > 0 {
      PairKernelNoPairs(exp, m, bt, lrate, n - 1);
      bt.OffsetsFit(|m.a|, |m.b|, n - 1);
      var aoffs, boffs := bt.AOffsets(n - 1), bt.BOffsets(n - 1);
      PairStepNoPairs(m, aoffs, boffs, Scores(exp, m, aoffs, boffs, bt.nrows), bt.nrows, lrate);
    }
  }

  /** A step changes only the A cells of its context columns and the B cells of its paired columns. */
  lemma PairStepFrame(m: Embeddings, aoffs: seq<int>, boffs: seq<int>, scores: seq<seq<real>>, n: nat, lrate: real, p: int, q: int)
    requires AllFit(aoffs, n, |m.a|) && AllFit(boffs, n, |m.b|) && Rows(scores, |aoffs|, |boffs|)
    requires 0 <= p < |m.a| && Untouched(p, aoffs, |aoffs|, n)
    requires 0 <= q < |m.b| && Untouched(q, boffs, |boffs|, n)
    ensures PairStep(m, aoffs, boffs, scores, n, lrate).a[p] == m.a[p]
    ensures PairStep(m, aoffs, boffs, scores, n, lrate).b[q] == m.b[q]
  {
    var arows, brows := ARows(scores, |aoffs|, |boffs|, lrate), BRows(scores, |aoffs|, |boffs|, lrate);
    var a1 := Accumulate(m.a, m.b, aoffs, boffs, arows, n, |aoffs|);
    AccumulateFrame(m.a, m.b, aoffs, boffs, arows, n, |aoffs|, p);
    AccumulateFrame(m.b, a1, boffs, aoffs, brows, n, |boffs|, q);
  }

  /** The kernel changes only cells of A in context columns and cells of B in paired columns. */
  lemma {:induction false} PairKernelFrame(exp: ExpFn, m: Embeddings, bt: Batch, lrate: real, n: nat, p: int, q: int)
    requires bt.Fit(|m.a|, |m.b|) && n <= bt.ncols
    requires 0 <= p < |m.a| && OutsideA(bt, n, p)
    requires 0 <= q < |m.b| && OutsideB(bt, n, q)
    ensures PairKernel(exp, m, bt, lrate, n).a[p] == m.a[p]
    ensures PairKernel(exp, m, bt, lrate, n).b[q] == m.b[q]
  {
    if n > 0 {
      var i := n - 1;
      ColumnOutside(bt, i, p, q);
      PairKernelFrame(exp, m, bt, lrate, i, p, q);
      var prev := PairKernel(exp, m, bt, lrate, i);
      bt.OffsetsFit(|m.a|, |m.b|, i);
      var aoffs, boffs := bt.AOffsets(i), bt.BOffsets(i);
      PairStepFrame(prev, aoffs, boffs, Scores(exp, prev, aoffs, boffs, bt.nrows), bt.nrows, lrate, p, q);
    }
  }

  /**
   * `word2vec`, run column after column: A and B end as the specification
   * PairKernel says, from their values on entry.
   */
  method Word2vec(exp: ExpFn, nrows: nat, ncols: nat, nwa: nat, nwb: nat, WA: array<int>, WB: array<int>,
                  A: array<real>, B: array<real>, lrate: real)
    requires A != B
    requires Batch(nrows, ncols, nwa, nwb, WA[..], WB[..]).Fit(A.Length, B.Length)
    modifies A, B
    ensures Embeddings(A[..], B[..])
            == PairKernel(exp, Embeddings(old(A[..]), old(B[..])), Batch(nrows, ncols, nwa, nwb, WA[..], WB[..]), lrate, ncols)
  {
    ghost var bt := Batch(nrows, ncols, nwa, nwb, WA[..], WB[..]);
    ghost var m0 := Embeddings(A[..], B[..]);
    var C := NewScoreTable(nwa, nwb);
    for i := 0 to ncols
      invariant Embeddings(A[..], B[..]) == PairKernel(exp, m0, bt, lrate, i)
    {
      PairColumnInPlace(exp, nrows, nwa, nwb, i, WA, WB, A, B, C, lrate, bt, m0);
    }
  }

  /** The scratch table of `nwa*nwb` scores that `word2vec` allocates once for all columns. */
  method NewScoreTable(nwa: nat, nwb: nat) returns (C: array<real>)
    ensures fresh(C) && C.Length == Scale(nwa, nwb)
  {
    C := new real[nwa * nwb];
    ScaleIsProduct(nwa, nwb);
  }

  /** One iteration of the outer loop of `word2vec`, with the score scratch C of nwa*nwb cells. */
  method PairColumnInPlace(exp: ExpFn, nrows: nat, nwa: nat, nwb: nat, i: nat, WA: array<int>, WB: array<int>,
                           A: array<real>, B: array<real>, C: array<real>, lrate: real, ghost bt: Batch, ghost m0: Embeddings)
    requires A != B && C != A && C != B && C.Length == Scale(nwa, nwb)
    requires bt.nrows == nrows && bt.nwa == nwa && bt.nwb == nwb && bt.wa == WA[..] && bt.wb == WB[..]
    requires |m0.a| == A.Length && |m0.b| == B.Length && bt.Fit(A.Length, B.Length) && i < bt.ncols
    requires Embeddings(A[..], B[..]) == PairKernel(exp, m0, bt, lrate, i)
    modifies A, B, C
    ensures Embeddings(A[..], B[..]) == PairKernel(exp, m0, bt, lrate, i + 1)
  {
    ghost var m := Embeddings(A[..], B[..]);
    bt.OffsetsFit(A.Length, B.Length, i);
    ghost var aoffs, boffs := bt.AOffsets(i), bt.BOffsets(i);
    ghost var scores := Scores(exp, m, aoffs, boffs, nrows);
    ScorePairs(exp, nrows, nwa, nwb, i, WA, WB, A, B, C, bt, aoffs, boffs, scores, m);
    PassA(nrows, nwa, nwb, i, WA, WB, A, B, C, lrate, bt, aoffs, boffs, scores, m);
    PassB(nrows, nwa, nwb, i, WA, WB, A, B, C, lrate, bt, aoffs, boffs, scores, m);
  }

  /** The cells of C for the combinations before `(j, k)` in the first phase's order (`j` outer, `k` inner) hold their scores. */
  ghost predicate Filled(C: array<real>, nwa: nat, nwb: nat, scores: seq<seq<real>>, j: nat, k: nat)
    reads C
    requires Rows(scores, nwa, nwb)
  {
    forall j', k' :: 0 <= j' < nwa && 0 <= k' < nwb && (j' < j || (j' == j && k' < k)) ==>
      Slot(nwa, j', k') < C.Length && C[Slot(nwa, j', k')] == scores[j'][k']
  }

  /** First phase of a column: `C[j + k*nwa]` gets the stored score of every combination. */
  method ScorePairs(exp: ExpFn, nrows: nat, nwa: nat, nwb: nat, i: nat, WA: array<int>, WB: array<int>,
                    A: array<real>, B: array<real>, C: array<real>,
                    ghost bt: Batch, ghost aoffs: seq<int>, ghost boffs: seq<int>, ghost scores: seq<seq<real>>, ghost m: Embeddings)
    requires C != A && C != B && C.Length == Scale(nwa, nwb)
    requires OffsetsOf(nrows, nwa, nwb, i, WA, WB, A.Length, B.Length, bt, aoffs, boffs)
    requires m == Embeddings(A[..], B[..]) && ScoresOf(exp, m, aoffs, boffs, nrows, scores)
    modifies C
    ensures forall j, k :: 0 <= j < nwa && 0 <= k < nwb ==> Slot(nwa, j, k) < C.Length && C[Slot(nwa, j, k)] == scores[j][k]
  {
    for j := 0 to nwa
      invariant Filled(C, nwa, nwb, scores, j, 0)
    {
      ScoreRow(exp, nrows, nwa, nwb, i, j, WA, WB, A, B, C, bt, aoffs, boffs, scores, m);
    }
  }

  /** The `k` loop of the first phase for context slot `j`: fills `C[j + k*nwa]` for every `k`. */
  method ScoreRow(exp: ExpFn, nrows: nat, nwa: nat, nwb: nat, i: nat, j: nat, WA: array<int>, WB: array<int>,
                  A: array<real>, B: array<real>, C: array<real>,
                  ghost bt: Batch, ghost aoffs: seq<int>, ghost boffs: seq<int>, ghost scores: seq<seq<real>>, ghost m: Embeddings)
    requires C != A && C != B && C.Length == Scale(nwa, nwb) && j < nwa
    requires OffsetsOf(nrows, nwa, nwb, i, WA, WB, A.Length, B.Length, bt, aoffs, boffs)
    requires m == Embeddings(A[..], B[..]) && ScoresOf(exp, m, aoffs, boffs, nrows, scores)
    requires Filled(C, nwa, nwb, scores, j, 0)
    modifies C
    ensures Filled(C, nwa, nwb, scores, j + 1, 0)
  {
    var ia := ContextOffset(nrows, nwa, i, j, WA, bt);
    for k := 0 to nwb
      invariant Filled(C, nwa, nwb, scores, j, k)
    {
      ScoreCell(exp, nrows, nwa, nwb, i, j, k, ia, WA, WB, A, B, C, bt, aoffs, boffs, scores, m);
    }
  }

  /** Innermost step of the first phase: `C[j + k*nwa] = -logistic(dot)` of one combination, keeping the cells already filled. */
  method ScoreCell(exp: ExpFn, nrows: nat, nwa: nat, nwb: nat, i: nat, j: nat, k: nat, ia: int, WA: array<int>, WB: array<int>,
                   A: array<real>, B: array<real>, C: array<real>,
                   ghost bt: Batch, ghost aoffs: seq<int>, ghost boffs: seq<int>, ghost scores: seq<seq<real>>, ghost m: Embeddings)
    requires C != A && C != B && C.Length == Scale(nwa, nwb) && j < nwa && k < nwb
    requires OffsetsOf(nrows, nwa, nwb, i, WA, WB, A.Length, B.Length, bt, aoffs, boffs)
    requires m == Embeddings(A[..], B[..]) && ScoresOf(exp, m, aoffs, boffs, nrows, scores)
    requires ia == aoffs[j] && Filled(C, nwa, nwb, scores, j, k)
    modifies C
    ensures Filled(C, nwa, nwb, scores, j, k + 1)
  {
    var ib := PairedOffset(nrows, nwb, i, k, WB, bt);
    var sc := NegatedLogisticDot(exp, A, ia, B, ib, nrows);
    SlotBelow(nwa, nwb, j, k);
    SlotIsProduct(nwa, j, k);
    C[j + k * nwa] := sc;
    forall j', k' | 0 <= j' < nwa && 0 <= k' < nwb && (j' < j || (j' == j && k' < k + 1))
      ensures Slot(nwa, j', k') < C.Length && C[Slot(nwa, j', k')] == scores[j'][k']
    {
      SlotBelow(nwa, nwb, j', k');
      if Slot(nwa, j', k') == Slot(nwa, j, k) {
        SlotInjective(nwa, j, k, j', k');
      }
    }
  }

  /** `-logistic(dot)` of one context column of A and one paired column of B, as the first phase computes it. */
  method NegatedLogisticDot(exp: ExpFn, A: array<real>, ia: int, B: array<real>, ib: int, nrows: nat) returns (sc: real)
    requires Fits(ia, nrows, A.Length) && Fits(ib, nrows, B.Length)
    ensures sc == PairScore(exp, Embeddings(A[..], B[..]), ia, ib, nrows)
  {
    var cv := ColumnDot(A, ia, B, ib, nrows);
    cv := Logistic(exp, cv);
    sc := -cv;
  }

  /** Second phase: for each context slot `j` and paired slot `k`, `A[c + ia] += lrate*C[j + nwa*k] * B[c + ib]`. */
  method PassA(nrows: nat, nwa: nat, nwb: nat, i: nat, WA: array<int>, WB: array<int>,
               A: array<real>, B: array<real>, C: array<real>, lrate: real,
               ghost bt: Batch, ghost aoffs: seq<int>, ghost boffs: seq<int>, ghost scores: seq<seq<real>>, ghost m: Embeddings)
    requires A != B && C != A && C != B && C.Length == Scale(nwa, nwb)
    requires OffsetsOf(nrows, nwa, nwb, i, WA, WB, A.Length, B.Length, bt, aoffs, boffs)
    requires m == Embeddings(A[..], B[..]) && Rows(scores, nwa, nwb)
    requires forall j, k :: 0 <= j < nwa && 0 <= k < nwb ==> Slot(nwa, j, k) < C.Length && C[Slot(nwa, j, k)] == scores[j][k]
    modifies A
    ensures A[..] == PairStep(m, aoffs, boffs, scores, nrows, lrate).a
  {
    ghost var rows := ARows(scores, nwa, nwb, lrate);
    for j := 0 to nwa
      invariant A[..] == Accumulate(m.a, m.b, aoffs, boffs, rows, nrows, j)
    {
      PassARow(nrows, nwa, nwb, i, j, WA, WB, A, B, C, lrate, bt, aoffs, boffs, scores[j], rows[j]);
    }
  }

  /** The row of the A pass for context slot `j`: the `k` loop, adding every weighted paired column into A's column. */
  method PassARow(nrows: nat, nwa: nat, nwb: nat, i: nat, j: nat, WA: array<int>, WB: array<int>,
                  A: array<real>, B: array<real>, C: array<real>, lrate: real,
                  ghost bt: Batch, ghost aoffs: seq<int>, ghost boffs: seq<int>, ghost col: seq<real>, ghost row: seq<real>)
    requires A != B && C != A && C.Length == Scale(nwa, nwb) && j < nwa
    requires OffsetsOf(nrows, nwa, nwb, i, WA, WB, A.Length, B.Length, bt, aoffs, boffs)
    requires |col| == nwb && forall k :: 0 <= k < nwb ==> Slot(nwa, j, k) < C.Length && C[Slot(nwa, j, k)] == col[k]
    requires row == Weighted(lrate, col)
    modifies A
    ensures A[..] == AddColumns(old(A[..]), aoffs[j], B[..], boffs, row, nrows)
  {
    var ia := ContextOffset(nrows, nwa, i, j, WA, bt);
    for k := 0 to nwb
      invariant A[..] == AddColumns(old(A[..]), ia, B[..], boffs[..k], row[..k], nrows)
    {
      PassACell(nrows, nwa, nwb, i, j, k, ia, WA, WB, A, B, C, lrate, bt, aoffs, boffs, col[k], row, old(A[..]));
    }
    assert boffs[..nwb] == boffs;
    assert row[..nwb] == row;
  }

  /** Innermost step of the A pass: `A[c + ia] += lrate*C[j + nwa*k] * B[c + ib]` for every `c`. */
  method PassACell(nrows: nat, nwa: nat, nwb: nat, i: nat, j: nat, k: nat, ia: int, WA: array<int>, WB: array<int>,
                   A: array<real>, B: array<real>, C: array<real>, lrate: real,
                   ghost bt: Batch, ghost aoffs: seq<int>, ghost boffs: seq<int>, ghost score: real, ghost row: seq<real>, ghost start: seq<real>)
    requires A != B && C != A && C.Length == Scale(nwa, nwb) && j < nwa && k < nwb
    requires OffsetsOf(nrows, nwa, nwb, i, WA, WB, A.Length, B.Length, bt, aoffs, boffs)
    requires Slot(nwa, j, k) < C.Length && C[Slot(nwa, j, k)] == score && |row| == nwb && row[k] == lrate * score
    requires |start| == A.Length && Fits(ia, nrows, A.Length)
    requires A[..] == AddColumns(start, ia, B[..], boffs[..k], row[..k], nrows)
    modifies A
    ensures A[..] == AddColumns(start, ia, B[..], boffs[..k + 1], row[..k + 1], nrows)
  {
    var ib := PairedOffset(nrows, nwb, i, k, WB, bt);
    SlotIsProduct(nwa, j, k);
    var cv := lrate * C[j + nwa * k];
    assert ib == boffs[k] && cv == row[k];
    AddColumnsSnoc(start, ia, B[..], boffs, row, nrows, k);
    ghost var prev := A[..];
    AddScaledInPlace(A, ia, cv, B, ib, nrows);
    assert A[..] == AddScaled(prev, ia, row[k], B[..], boffs[k], nrows);
  }

  /** Third phase: for each paired slot `k` and context slot `j`, `B[c + ib] += lrate*C[j + nwa*k] * A[c + ia]`, with A as the A pass left it. */
  method PassB(nrows: nat, nwa: nat, nwb: nat, i: nat, WA: array<int>, WB: array<int>,
               A: array<real>, B: array<real>, C: array<real>, lrate: real,
               ghost bt: Batch, ghost aoffs: seq<int>, ghost boffs: seq<int>, ghost scores: seq<seq<real>>, ghost m: Embeddings)
    requires A != B && C != A && C != B && C.Length == Scale(nwa, nwb)
    requires OffsetsOf(nrows, nwa, nwb, i, WA, WB, A.Length, B.Length, bt, aoffs, boffs)
    requires |m.a| == A.Length && m.b == B[..] && Rows(scores, nwa, nwb)
    requires A[..] == PairStep(m, aoffs, boffs, scores, nrows, lrate).a
    requires forall j, k :: 0 <= j < nwa && 0 <= k < nwb ==> Slot(nwa, j, k) < C.Length && C[Slot(nwa, j, k)] == scores[j][k]
    modifies B
    ensures B[..] == PairStep(m, aoffs, boffs, scores, nrows, lrate).b
  {
    ghost var rows := BRows(scores, nwa, nwb, lrate);
    for k := 0 to nwb
      invariant B[..] == Accumulate(m.b, A[..], boffs, aoffs, rows, nrows, k)
    {
      PassBRow(nrows, nwa, nwb, i, k, WA, WB, A, B, C, lrate, bt, aoffs, boffs, PairedScores(scores, nwa, nwb, k), rows[k]);
    }
  }

  /** The row of the B pass for paired slot `k`: the `j` loop, adding every weighted context column into B's column. */
  method PassBRow(nrows: nat, nwa: nat, nwb: nat, i: nat, k: nat, WA: array<int>, WB: array<int>,
                  A: array<real>, B: array<real>, C: array<real>, lrate: real,
                  ghost bt: Batch, ghost aoffs: seq<int>, ghost boffs: seq<int>, ghost col: seq<real>, ghost row: seq<real>)
    requires A != B && C != B && C.Length == Scale(nwa, nwb) && k < nwb
    requires OffsetsOf(nrows, nwa, nwb, i, WA, WB, A.Length, B.Length, bt, aoffs, boffs)
    requires |col| == nwa && forall j :: 0 <= j < nwa ==> Slot(nwa, j, k) < C.Length && C[Slot(nwa, j, k)] == col[j]
    requires row == Weighted(lrate, col)
    modifies B
    ensures B[..] == AddColumns(old(B[..]), boffs[k], A[..], aoffs, row, nrows)
  {
    var ib := PairedOffset(nrows, nwb, i, k, WB, bt);
    for j := 0 to nwa
      invariant B[..] == AddColumns(old(B[..]), ib, A[..], aoffs[..j], row[..j], nrows)
    {
      PassBCell(nrows, nwa, nwb, i, j, k, ib, WA, WB, A, B, C, lrate, bt, aoffs, boffs, col[j], row, old(B[..]));
    }
    assert aoffs[..nwa] == aoffs;
    assert row[..nwa] == row;
  }

  /** Innermost step of the B pass: `B[c + ib] += lrate*C[j + nwa*k] * A[c + ia]` for every `c`. */
  method PassBCell(nrows: nat, nwa: nat, nwb: nat, i: nat, j: nat, k: nat, ib: int, WA: array<int>, WB: array<int>,
                   A: array<real>, B: array<real>, C: array<real>, lrate: real,
                   ghost bt: Batch, ghost aoffs: seq<int>, ghost boffs: seq<int>, ghost score: real, ghost row: seq<real>, ghost start: seq<real>)
    requires A != B && C != B && C.Length == Scale(nwa, nwb) && j < nwa && k < nwb
    requires OffsetsOf(nrows, nwa, nwb, i, WA, WB, A.Length, B.Length, bt, aoffs, boffs)
    requires Slot(nwa, j, k) < C.Length && C[Slot(nwa, j, k)] == score && |row| == nwa && row[j] == lrate * score
    requires |start| == B.Length && Fits(ib, nrows, B.Length)
    requires B[..] == AddColumns(start, ib, A[..], aoffs[..j], row[..j], nrows)
    modifies B
    ensures B[..] == AddColumns(start, ib, A[..], aoffs[..j + 1], row[..j + 1], nrows)
  {
    var ia := ContextOffset(nrows, nwa, i, j, WA, bt);
    SlotIsProduct(nwa, j, k);
    var cv := lrate * C[j + nwa * k];
    assert ia == aoffs[j] && cv == row[j];
    AddColumnsSnoc(start, ib, A[..], aoffs, row, nrows, j);
    ghost var prev := B[..];
    AddScaledInPlace(B, ib, cv, A, ia, nrows);
    assert B[..] == AddScaled(prev, ib, row[j], A[..], aoffs[j], nrows);
  }
}
