// The backward kernel (`word2vecBwd`): per column, every context column of A
// is overwritten with the weighted sum of its paired columns of B, the
// weights being `lrate` times the scores the caller left in C; then every
// paired column of B is overwritten the same way from the A just written.
//
// Two members stand for no function of the C code and only keep proofs
// small: ScoreAt reads one score cell `C[j + nwa*(k + nwb*i)]`, proving the
// index arithmetic once; AfterColumn is the fold after one more column, kept
// in BwdKernel's recursion so that the solver unfolds a column's work only
// where a proof needs it.

module BackwardUpdate {
  import opened Embedding
  import opened ForwardScore

  /**
   * The score table of column `i` as the caller's buffer holds it:
   * entry `[j][k]` is `C[j + nwa*(k + nwb*i)]`.
   */
  function BlockScores(c: seq<real>, nwa: nat, nwb: nat, i: nat): (s: seq<seq<real>>)
    requires BlockStart(nwa, nwb, i + 1) <= |c|
    ensures Rows(s, nwa, nwb)
    ensures forall j, k :: 0 <= j < nwa && 0 <= k < nwb ==>
              ScoreIndex(nwa, nwb, i, j, k) < |c| && s[j][k] == c[ScoreIndex(nwa, nwb, i, j, k)]
  {
    AllScoreIndicesInBlocks(nwa, nwb);
    seq(nwa, j requires 0 <= j < nwa => seq(nwb, k requires 0 <= k < nwb => c[ScoreIndex(nwa, nwb, i, j, k)]))
  }

  /** Weights of context slot `j` of column `i`: `lrate * C[j + nwa*(k + nwb*i)]` for each paired slot `k`. */
  function ContextWeights(c: seq<real>, bt: Batch, lrate: real, i: nat, j: nat): (w: seq<real>)
    requires BlockStart(bt.nwa, bt.nwb, i + 1) <= |c| && j < bt.nwa
    ensures |w| == bt.nwb
  {
    Weighted(lrate, BlockScores(c, bt.nwa, bt.nwb, i)[j])
  }

  /** Weights of paired slot `k` of column `i`: `lrate * C[j + nwa*(k + nwb*i)]` for each context slot `j`. */
  function PairedWeights(c: seq<real>, bt: Batch, lrate: real, i: nat, k: nat): (w: seq<real>)
    requires BlockStart(bt.nwa, bt.nwb, i + 1) <= |c| && k < bt.nwb
    ensures |w| == bt.nwa
  {
    Weighted(lrate, PairedScores(BlockScores(c, bt.nwa, bt.nwb, i), bt.nwa, bt.nwb, k))
  }

  /**
   * One column, given its offsets and its score table: the A pass overwrites
   * each context column from the old B, the B pass overwrites each paired
   * column from the A that the A pass left.
   */
  function BwdStep(m: Embeddings, aoffs: seq<int>, boffs: seq<int>, scores: seq<seq<real>>, n: nat, lrate: real): (r: Embeddings)
    requires AllFit(aoffs, n, |m.a|) && AllFit(boffs, n, |m.b|) && Rows(scores, |aoffs|, |boffs|)
    ensures |r.a| == |m.a| && |r.b| == |m.b|
  {
    var a1 := Overwrite(m.a, m.b, aoffs, boffs, ARows(scores, |aoffs|, |boffs|, lrate), n, |aoffs|);
    var b1 := Overwrite(m.b, a1, boffs, aoffs, BRows(scores, |aoffs|, |boffs|, lrate), n, |boffs|);
    Embeddings(a1, b1)
  }

  /** One iteration of the outer loop of `word2vecBwd`. */
  function BwdColumn(m: Embeddings, bt: Batch, c: seq<real>, lrate: real, i: nat): (r: Embeddings)
    requires bt.Fit(|m.a|, |m.b|) && i < bt.ncols && BlockStart(bt.nwa, bt.nwb, i + 1) <= |c|
    ensures |r.a| == |m.a| && |r.b| == |m.b|
  {
    bt.OffsetsFit(|m.a|, |m.b|, i);
    BwdStep(m, bt.AOffsets(i), bt.BOffsets(i), BlockScores(c, bt.nwa, bt.nwb, i), bt.nrows, lrate)
  }

  /** The matrices after the first `n` columns, run in order. */
  function BwdKernel(m: Embeddings, bt: Batch, c: seq<real>, lrate: real, n: nat): (r: Embeddings)
    requires bt.Fit(|m.a|, |m.b|) && n <= bt.ncols && BlockStart(bt.nwa, bt.nwb, n) <= |c|
    ensures |r.a| == |m.a| && |r.b| == |m.b|
    decreases n, 1
  {
    if n == 0 then m
    else
      BlockStartMono(bt.nwa, bt.nwb, n - 1, n);
      AfterColumn(m, bt, c, lrate, n - 1)
  }

  /** The matrices once column `i` has run on what the columns before it left. */
  function AfterColumn(m: Embeddings, bt: Batch, c: seq<real>, lrate: real, i: nat): (r: Embeddings)
    requires bt.Fit(|m.a|, |m.b|) && i < bt.ncols && BlockStart(bt.nwa, bt.nwb, i + 1) <= |c|
    ensures |r.a| == |m.a| && |r.b| == |m.b|
    decreases i + 1, 0
  {
    BlockStartMono(bt.nwa, bt.nwb, i, i + 1);
    BwdColumn(BwdKernel(m, bt, c, lrate, i), bt, c, lrate, i)
  }

  /**
   * What one column leaves behind: a context column whose id no later
   * context slot of the column repeats holds the weighted sum of the OLD
   * paired columns; a paired column whose id no later paired slot repeats
   * holds the weighted sum of the context columns of the NEW A.
   */
  lemma BwdColumnResult(m: Embeddings, bt: Batch, c: seq<real>, lrate: real, i: nat, j: nat, k: nat, r: nat)
    requires bt.Fit(|m.a|, |m.b|) && i < bt.ncols && BlockStart(bt.nwa, bt.nwb, i + 1) <= |c|
    requires j < bt.nwa && k < bt.nwb && r < bt.nrows
    requires forall j' :: j < j' < bt.nwa ==> bt.AId(i, j') != bt.AId(i, j)
    requires forall k' :: k < k' < bt.nwb ==> bt.BId(i, k') != bt.BId(i, k)
    ensures (bt.OffsetsFit(|m.a|, |m.b|, i);
             BwdColumn(m, bt, c, lrate, i).a[bt.AOffsets(i)[j] + r]
             == Combo(m.b, bt.BOffsets(i), Weighted(lrate, BlockScores(c, bt.nwa, bt.nwb, i)[j]), r, bt.nrows))
    ensures (bt.OffsetsFit(|m.a|, |m.b|, i);
             BwdColumn(m, bt, c, lrate, i).b[bt.BOffsets(i)[k] + r]
             == Combo(BwdColumn(m, bt, c, lrate, i).a, bt.AOffsets(i),
                      Weighted(lrate, PairedScores(BlockScores(c, bt.nwa, bt.nwb, i), bt.nwa, bt.nwb, k)), r, bt.nrows))
  {
    BwdColumnResultA(m, bt, c, lrate, i, j, r);
    BwdColumnResultB(m, bt, c, lrate, i, k, r);
  }

  /** The A half of BwdColumnResult: the last context slot naming an id decides that column of A. */
  lemma BwdColumnResultA(m: Embeddings, bt: Batch, c: seq<real>, lrate: real, i: nat, j: nat, r: nat)
    requires bt.Fit(|m.a|, |m.b|) && i < bt.ncols && BlockStart(bt.nwa, bt.nwb, i + 1) <= |c|
    requires j < bt.nwa && r < bt.nrows
    requires forall j' :: j < j' < bt.nwa ==> bt.AId(i, j') != bt.AId(i, j)
    ensures (bt.OffsetsFit(|m.a|, |m.b|, i);
             BwdColumn(m, bt, c, lrate, i).a[bt.AOffsets(i)[j] + r]
             == Combo(m.b, bt.BOffsets(i), ContextWeights(c, bt, lrate, i, j), r, bt.nrows))
  {
    bt.OffsetsFit(|m.a|, |m.b|, i);
    var aoffs, boffs := bt.AOffsets(i), bt.BOffsets(i);
    var scores := BlockScores(c, bt.nwa, bt.nwb, i);
    forall j' | j < j' < bt.nwa ensures Disjoint(aoffs[j'], aoffs[j], bt.nrows) {
      ColumnsDisjoint(bt.nrows, bt.AId(i, j'), bt.AId(i, j));
    }
    OverwriteLast(m.a, m.b, aoffs, boffs, ARows(scores, bt.nwa, bt.nwb, lrate), bt.nrows, bt.nwa, j, r);
  }

  /** The B half of BwdColumnResult: the last paired slot naming an id decides that column of B. */
  lemma BwdColumnResultB(m: Embeddings, bt: Batch, c: seq<real>, lrate: real, i: nat, k: nat, r: nat)
    requires bt.Fit(|m.a|, |m.b|) && i < bt.ncols && BlockStart(bt.nwa, bt.nwb, i + 1) <= |c|
    requires k < bt.nwb && r < bt.nrows
    requires forall k' :: k < k' < bt.nwb ==> bt.BId(i, k') != bt.BId(i, k)
    ensures (bt.OffsetsFit(|m.a|, |m.b|, i);
             BwdColumn(m, bt, c, lrate, i).b[bt.BOffsets(i)[k] + r]
             == Combo(BwdColumn(m, bt, c, lrate, i).a, bt.AOffsets(i), PairedWeights(c, bt, lrate, i, k), r, bt.nrows))
  {
    bt.OffsetsFit(|m.a|, |m.b|, i);
    var aoffs, boffs := bt.AOffsets(i), bt.BOffsets(i);
    var scores := BlockScores(c, bt.nwa, bt.nwb, i);
    var a1 := Overwrite(m.a, m.b, aoffs, boffs, ARows(scores, bt.nwa, bt.nwb, lrate), bt.nrows, bt.nwa);
    forall k' | k < k' < bt.nwb ensures Disjoint(boffs[k'], boffs[k], bt.nrows) {
      ColumnsDisjoint(bt.nrows, bt.BId(i, k'), bt.BId(i, k));
    }
    OverwriteLast(m.b, a1, boffs, aoffs, BRows(scores, bt.nwa, bt.nwb, lrate), bt.nrows, bt.nwb, k, r);
  }

  /** A column changes only the A cells of its context columns and the B cells of its paired columns. */
  lemma BwdStepFrame(m: Embeddings, aoffs: seq<int>, boffs: seq<int>, scores: seq<seq<real>>, n: nat, lrate: real, p: int, q: int)
    requires AllFit(aoffs, n, |m.a|) && AllFit(boffs, n, |m.b|) && Rows(scores, |aoffs|, |boffs|)
    requires 0 <= p < |m.a| && Untouched(p, aoffs, |aoffs|, n)
    requires 0 <= q < |m.b| && Untouched(q, boffs, |boffs|, n)
    ensures BwdStep(m, aoffs, boffs, scores, n, lrate).a[p] == m.a[p]
    ensures BwdStep(m, aoffs, boffs, scores, n, lrate).b[q] == m.b[q]
  {
    var arows, brows := ARows(scores, |aoffs|, |boffs|, lrate), BRows(scores, |aoffs|, |boffs|, lrate);
    var a1 := Overwrite(m.a, m.b, aoffs, boffs, arows, n, |aoffs|);
    OverwriteFrame(m.a, m.b, aoffs, boffs, arows, n, |aoffs|, p);
    OverwriteFrame(m.b, a1, boffs, aoffs, brows, n, |boffs|, q);
  }

  /** The kernel changes only cells of A in context columns and cells of B in paired columns. */
  lemma {:induction false} BwdKernelFrame(m: Embeddings, bt: Batch, c: seq<real>, lrate: real, n: nat, p: int, q: int)
    requires bt.Fit(|m.a|, |m.b|) && n <= bt.ncols && BlockStart(bt.nwa, bt.nwb, n) <= |c|
    requires 0 <= p < |m.a| && OutsideA(bt, n, p)
    requires 0 <= q < |m.b| && OutsideB(bt, n, q)
    ensures BwdKernel(m, bt, c, lrate, n).a[p] == m.a[p]
    ensures BwdKernel(m, bt, c, lrate, n).b[q] == m.b[q]
  {
    if n > 0 {
      var i := n - 1;
      BlockStartMono(bt.nwa, bt.nwb, i, n);
      ColumnOutside(bt, i, p, q);
      BwdKernelFrame(m, bt, c, lrate, i, p, q);
      var prev := BwdKernel(m, bt, c, lrate, i);
      bt.OffsetsFit(|m.a|, |m.b|, i);
      BwdStepFrame(prev, bt.AOffsets(i), bt.BOffsets(i), BlockScores(c, bt.nwa, bt.nwb, i), bt.nrows, lrate, p, q);
    }
  }

  /**
   * With no paired slots (`nwb == 0`) a column still zeroes every context
   * column of A and leaves the rest of A, and all of B, as they were.
   */
  lemma BwdStepNoPairs(m: Embeddings, aoffs: seq<int>, boffs: seq<int>, scores: seq<seq<real>>, n: nat, lrate: real, p: int)
    requires AllFit(aoffs, n, |m.a|) && AllFit(boffs, n, |m.b|) && Rows(scores, |aoffs|, |boffs|)
    requires |boffs| == 0 && 0 <= p < |m.a|
    ensures BwdStep(m, aoffs, boffs, scores, n, lrate).a[p] == if Untouched(p, aoffs, |aoffs|, n) then m.a[p] else 0.0
    ensures BwdStep(m, aoffs, boffs, scores, n, lrate).b == m.b
  {
    var arows, brows := ARows(scores, |aoffs|, |boffs|, lrate), BRows(scores, |aoffs|, |boffs|, lrate);
    OverwriteWithoutSources(m.a, m.b, aoffs, boffs, arows, n, |aoffs|, p);
  }

  /**
   * With no context slots (`nwa == 0`) a column leaves A as it was but still
   * zeroes every paired column of B, which nothing then refills.
   */
  lemma BwdStepNoContext(m: Embeddings, aoffs: seq<int>, boffs: seq<int>, scores: seq<seq<real>>, n: nat, lrate: real, q: int)
    requires AllFit(aoffs, n, |m.a|) && AllFit(boffs, n, |m.b|) && Rows(scores, |aoffs|, |boffs|)
    requires |aoffs| == 0 && 0 <= q < |m.b|
    ensures BwdStep(m, aoffs, boffs, scores, n, lrate).a == m.a
    ensures BwdStep(m, aoffs, boffs, scores, n, lrate).b[q] == if Untouched(q, boffs, |boffs|, n) then m.b[q] else 0.0
  {
    var arows, brows := ARows(scores, |aoffs|, |boffs|, lrate), BRows(scores, |aoffs|, |boffs|, lrate);
    OverwriteWithoutSources(m.b, m.a, boffs, aoffs, brows, n, |boffs|, q);
  }

  /** A column leaves alone every cell of A outside its context columns, whatever B holds. */
  lemma BwdColumnFrameA(m: Embeddings, bt: Batch, c: seq<real>, lrate: real, i: nat, p: int)
    requires bt.Fit(|m.a|, |m.b|) && i < bt.ncols && BlockStart(bt.nwa, bt.nwb, i + 1) <= |c|
    requires 0 <= p < |m.a| && Untouched(p, bt.AOffsets(i), bt.nwa, bt.nrows)
    ensures BwdColumn(m, bt, c, lrate, i).a[p] == m.a[p]
  {
    bt.OffsetsFit(|m.a|, |m.b|, i);
    var aoffs, boffs := bt.AOffsets(i), bt.BOffsets(i);
    var scores := BlockScores(c, bt.nwa, bt.nwb, i);
    OverwriteFrame(m.a, m.b, aoffs, boffs, ARows(scores, bt.nwa, bt.nwb, lrate), bt.nrows, bt.nwa, p);
  }

  /** A column leaves alone every cell of B outside its paired columns, whatever A holds. */
  lemma BwdColumnFrameB(m: Embeddings, bt: Batch, c: seq<real>, lrate: real, i: nat, q: int)
    requires bt.Fit(|m.a|, |m.b|) && i < bt.ncols && BlockStart(bt.nwa, bt.nwb, i + 1) <= |c|
    requires 0 <= q < |m.b| && Untouched(q, bt.BOffsets(i), bt.nwb, bt.nrows)
    ensures BwdColumn(m, bt, c, lrate, i).b[q] == m.b[q]
  {
    bt.OffsetsFit(|m.a|, |m.b|, i);
    var aoffs, boffs := bt.AOffsets(i), bt.BOffsets(i);
    var scores := BlockScores(c, bt.nwa, bt.nwb, i);
    var a1 := Overwrite(m.a, m.b, aoffs, boffs, ARows(scores, bt.nwa, bt.nwb, lrate), bt.nrows, bt.nwa);
    OverwriteFrame(m.b, a1, boffs, aoffs, BRows(scores, bt.nwa, bt.nwb, lrate), bt.nrows, bt.nwb, q);
  }

  /** Columns `lo .. n - 1` keep a cell of A that none of their context columns covers. */
  lemma {:induction false} BwdSuffixFrameA(m: Embeddings, bt: Batch, c: seq<real>, lrate: real, lo: nat, n: nat, p: int)
    requires bt.Fit(|m.a|, |m.b|) && lo <= n <= bt.ncols && BlockStart(bt.nwa, bt.nwb, n) <= |c|
    requires 0 <= p < |m.a| && forall i :: lo <= i < n ==> Untouched(p, bt.AOffsets(i), bt.nwa, bt.nrows)
    ensures (BlockStartMono(bt.nwa, bt.nwb, lo, n);
             BwdKernel(m, bt, c, lrate, n).a[p] == BwdKernel(m, bt, c, lrate, lo).a[p])
  {
    if lo < n {
      BlockStartMono(bt.nwa, bt.nwb, n - 1, n);
      BwdSuffixFrameA(m, bt, c, lrate, lo, n - 1, p);
      BwdColumnFrameA(BwdKernel(m, bt, c, lrate, n - 1), bt, c, lrate, n - 1, p);
    }
  }

  /** Columns `lo .. n - 1` keep a cell of B that none of their paired columns covers. */
  lemma {:induction false} BwdSuffixFrameB(m: Embeddings, bt: Batch, c: seq<real>, lrate: real, lo: nat, n: nat, q: int)
    requires bt.Fit(|m.a|, |m.b|) && lo <= n <= bt.ncols && BlockStart(bt.nwa, bt.nwb, n) <= |c|
    requires 0 <= q < |m.b| && forall i :: lo <= i < n ==> Untouched(q, bt.BOffsets(i), bt.nwb, bt.nrows)
    ensures (BlockStartMono(bt.nwa, bt.nwb, lo, n);
             BwdKernel(m, bt, c, lrate, n).b[q] == BwdKernel(m, bt, c, lrate, lo).b[q])
  {
    if lo < n {
      BlockStartMono(bt.nwa, bt.nwb, n - 1, n);
      BwdSuffixFrameB(m, bt, c, lrate, lo, n - 1, q);
      BwdColumnFrameB(BwdKernel(m, bt, c, lrate, n - 1), bt, c, lrate, n - 1, q);
    }
  }

  /** Columns after `i` keep the cells of slot `j` of column `i` when none of them names its id. */
  lemma BwdKeepsLastA(m: Embeddings, bt: Batch, c: seq<real>, lrate: real, n: nat, i: nat, j: nat, r: nat)
    requires bt.Fit(|m.a|, |m.b|) && n <= bt.ncols && BlockStart(bt.nwa, bt.nwb, n) <= |c|
    requires i < n && j < bt.nwa && r < bt.nrows
    requires LastContextSlot(bt, n, i, j)
    ensures (bt.OffsetsFit(|m.a|, |m.b|, i);
             BlockStartMono(bt.nwa, bt.nwb, i + 1, n);
             var q := bt.AOffsets(i)[j] + r;
             BwdKernel(m, bt, c, lrate, n).a[q] == BwdKernel(m, bt, c, lrate, i + 1).a[q])
  {
    bt.OffsetsFit(|m.a|, |m.b|, i);
    LaterColumnsMissA(bt, n, i, j, r);
    BwdSuffixFrameA(m, bt, c, lrate, i + 1, n, bt.AOffsets(i)[j] + r);
  }

  /** BwdColumnResultA for the column that the first `i` columns hand on. */
  lemma BwdKernelColumnA(m: Embeddings, bt: Batch, c: seq<real>, lrate: real, i: nat, j: nat, r: nat)
    requires bt.Fit(|m.a|, |m.b|) && i < bt.ncols && BlockStart(bt.nwa, bt.nwb, i + 1) <= |c|
    requires j < bt.nwa && r < bt.nrows
    requires forall j' :: j < j' < bt.nwa ==> bt.AId(i, j') != bt.AId(i, j)
    ensures (bt.OffsetsFit(|m.a|, |m.b|, i);
             BlockStartMono(bt.nwa, bt.nwb, i, i + 1);
             BwdKernel(m, bt, c, lrate, i + 1).a[bt.AOffsets(i)[j] + r]
             == Combo(BwdKernel(m, bt, c, lrate, i).b, bt.BOffsets(i), ContextWeights(c, bt, lrate, i, j), r, bt.nrows))
  {
    BlockStartMono(bt.nwa, bt.nwb, i, i + 1);
    BwdColumnResultA(BwdKernel(m, bt, c, lrate, i), bt, c, lrate, i, j, r);
  }

  /**
   * Overwrite semantics of the whole call: if context slot `j` of column `i`
   * is the last slot of the call that names its id, that column of A ends
   * as exactly its weighted sum of B as column `i` found it; what A held
   * there before plays no part.
   */
  lemma BwdKernelOverwritesA(m: Embeddings, bt: Batch, c: seq<real>, lrate: real, n: nat, i: nat, j: nat, r: nat)
    requires bt.Fit(|m.a|, |m.b|) && n <= bt.ncols && BlockStart(bt.nwa, bt.nwb, n) <= |c|
    requires i < n && j < bt.nwa && r < bt.nrows
    requires LastContextSlot(bt, n, i, j)
    ensures (bt.OffsetsFit(|m.a|, |m.b|, i);
             BlockStartMono(bt.nwa, bt.nwb, i + 1, n);
             BlockStartMono(bt.nwa, bt.nwb, i, i + 1);
             var w, start := ContextWeights(c, bt, lrate, i, j), BwdKernel(m, bt, c, lrate, i);
             BwdKernel(m, bt, c, lrate, n).a[bt.AOffsets(i)[j] + r] == Combo(start.b, bt.BOffsets(i), w, r, bt.nrows))
  {
    bt.OffsetsFit(|m.a|, |m.b|, i);
    BlockStartMono(bt.nwa, bt.nwb, i + 1, n);
    LastContextSlotInColumn(bt, n, i, j);
    BwdKernelColumnA(m, bt, c, lrate, i, j, r);
    BwdKeepsLastA(m, bt, c, lrate, n, i, j, r);
  }

  /** Columns after `i` keep the cells of slot `k` of column `i` when none of them names its id. */
  lemma BwdKeepsLastB(m: Embeddings, bt: Batch, c: seq<real>, lrate: real, n: nat, i: nat, k: nat, r: nat)
    requires bt.Fit(|m.a|, |m.b|) && n <= bt.ncols && BlockStart(bt.nwa, bt.nwb, n) <= |c|
    requires i < n && k < bt.nwb && r < bt.nrows
    requires LastPairedSlot(bt, n, i, k)
    ensures (bt.OffsetsFit(|m.a|, |m.b|, i);
             BlockStartMono(bt.nwa, bt.nwb, i + 1, n);
             var q := bt.BOffsets(i)[k] + r;
             BwdKernel(m, bt, c, lrate, n).b[q] == BwdKernel(m, bt, c, lrate, i + 1).b[q])
  {
    bt.OffsetsFit(|m.a|, |m.b|, i);
    LaterColumnsMissB(bt, n, i, k, r);
    BwdSuffixFrameB(m, bt, c, lrate, i + 1, n, bt.BOffsets(i)[k] + r);
  }

  /** BwdColumnResultB for the column that the first `i` columns hand on. */
  lemma BwdKernelColumnB(m: Embeddings, bt: Batch, c: seq<real>, lrate: real, i: nat, k: nat, r: nat)
    requires bt.Fit(|m.a|, |m.b|) && i < bt.ncols && BlockStart(bt.nwa, bt.nwb, i + 1) <= |c|
    requires k < bt.nwb && r < bt.nrows
    requires forall k' :: k < k' < bt.nwb ==> bt.BId(i, k') != bt.BId(i, k)
    ensures (bt.OffsetsFit(|m.a|, |m.b|, i);
             var mid := BwdKernel(m, bt, c, lrate, i + 1);
             mid.b[bt.BOffsets(i)[k] + r] == Combo(mid.a, bt.AOffsets(i), PairedWeights(c, bt, lrate, i, k), r, bt.nrows))
  {
    BlockStartMono(bt.nwa, bt.nwb, i, i + 1);
    BwdColumnResultB(BwdKernel(m, bt, c, lrate, i), bt, c, lrate, i, k, r);
  }

  /**
   * The same for B: if paired slot `k` of column `i` is the last slot of the
   * call that names its id, that column of B ends as exactly its weighted
   * sum of the A that column `i` has just written.
   */
  lemma BwdKernelOverwritesB(m: Embeddings, bt: Batch, c: seq<real>, lrate: real, n: nat, i: nat, k: nat, r: nat)
    requires bt.Fit(|m.a|, |m.b|) && n <= bt.ncols && BlockStart(bt.nwa, bt.nwb, n) <= |c|
    requires i < n && k < bt.nwb && r < bt.nrows
    requires LastPairedSlot(bt, n, i, k)
    ensures (bt.OffsetsFit(|m.a|, |m.b|, i);
             BlockStartMono(bt.nwa, bt.nwb, i + 1, n);
             var w, mid := PairedWeights(c, bt, lrate, i, k), BwdKernel(m, bt, c, lrate, i + 1);
             BwdKernel(m, bt, c, lrate, n).b[bt.BOffsets(i)[k] + r] == Combo(mid.a, bt.AOffsets(i), w, r, bt.nrows))
  {
    bt.OffsetsFit(|m.a|, |m.b|, i);
    BlockStartMono(bt.nwa, bt.nwb, i + 1, n);
    LastPairedSlotInColumn(bt, n, i, k);
    BwdKernelColumnB(m, bt, c, lrate, i, k, r);
    BwdKeepsLastB(m, bt, c, lrate, n, i, k, r);
  }

  /**
   * With no paired slots (`nwb == 0`) the whole call zeroes every column of
   * A that WA names and leaves the rest of A, and all of B, as they were.
   */
  lemma {:induction false} BwdKernelNoPairs(m: Embeddings, bt: Batch, c: seq<real>, lrate: real, n: nat, p: int)
    requires bt.Fit(|m.a|, |m.b|) && n <= bt.ncols && BlockStart(bt.nwa, bt.nwb, n) <= |c|
    requires bt.nwb == 0 && 0 <= p < |m.a|
    ensures BwdKernel(m, bt, c, lrate, n).b == m.b
    ensures BwdKernel(m, bt, c, lrate, n).a[p] == if OutsideA(bt, n, p) then m.a[p] else 0.0
  {
    if n > 0 {
      var i := n - 1;
      BlockStartMono(bt.nwa, bt.nwb, i, n);
      BwdKernelNoPairs(m, bt, c, lrate, i, p);
      var prev := BwdKernel(m, bt, c, lrate, i);
      bt.OffsetsFit(|m.a|, |m.b|, i);
      BwdStepNoPairs(prev, bt.AOffsets(i), bt.BOffsets(i), BlockScores(c, bt.nwa, bt.nwb, i), bt.nrows, lrate, p);
      OutsideAStep(bt, i, p);
    }
  }

  /**
   * With no context slots (`nwa == 0`) the whole call is not a no-op: it leaves
   * A as it was and zeroes every column of B that WB names.
   */
  lemma {:induction false} BwdKernelNoContext(m: Embeddings, bt: Batch, c: seq<real>, lrate: real, n: nat, q: int)
    requires bt.Fit(|m.a|, |m.b|) && n <= bt.ncols && BlockStart(bt.nwa, bt.nwb, n) <= |c|
    requires bt.nwa == 0 && 0 <= q < |m.b|
    ensures BwdKernel(m, bt, c, lrate, n).a == m.a
    ensures BwdKernel(m, bt, c, lrate, n).b[q] == if OutsideB(bt, n, q) then m.b[q] else 0.0
  {
    if n > 0 {
      var i := n - 1;
      BlockStartMono(bt.nwa, bt.nwb, i, n);
      BwdKernelNoContext(m, bt, c, lrate, i, q);
      var prev := BwdKernel(m, bt, c, lrate, i);
      bt.OffsetsFit(|m.a|, |m.b|, i);
      BwdStepNoContext(prev, bt.AOffsets(i), bt.BOffsets(i), BlockScores(c, bt.nwa, bt.nwb, i), bt.nrows, lrate, q);
      OutsideBStep(bt, i, q);
    }
  }

  /**
   * `word2vecBwd`, run column after column: A and B end as BwdKernel says,
   * from their values on entry and the scores in C, which is only read.
   */
  method Word2vecBwd(nrows: nat, ncols: nat, nwa: nat, nwb: nat, WA: array<int>, WB: array<int>,
                     A: array<real>, B: array<real>, C: array<real>, lrate: real)
    requires A != B && C != A && C != B
    requires BlockStart(nwa, nwb, ncols) <= C.Length
    requires Batch(nrows, ncols, nwa, nwb, WA[..], WB[..]).Fit(A.Length, B.Length)
    modifies A, B
    ensures Embeddings(A[..], B[..])
            == BwdKernel(Embeddings(old(A[..]), old(B[..])), Batch(nrows, ncols, nwa, nwb, WA[..], WB[..]), C[..], lrate, ncols)
  {
    ghost var bt := Batch(nrows, ncols, nwa, nwb, WA[..], WB[..]);
    ghost var m0, cs := Embeddings(A[..], B[..]), C[..];
    for i := 0 to ncols
      invariant C[..] == cs && BlockStart(nwa, nwb, i) <= |cs|
      invariant Embeddings(A[..], B[..]) == BwdKernel(m0, bt, cs, lrate, i)
    {
      BlockStartMono(nwa, nwb, i + 1, ncols);
      BwdColumnInPlace(nrows, nwa, nwb, i, WA, WB, A, B, C, lrate, bt, m0);
    }
  }

  /** One iteration of the outer loop of `word2vecBwd`. */
  method BwdColumnInPlace(nrows: nat, nwa: nat, nwb: nat, i: nat, WA: array<int>, WB: array<int>,
                          A: array<real>, B: array<real>, C: array<real>, lrate: real, ghost bt: Batch, ghost m0: Embeddings)
    requires A != B && C != A && C != B
    requires bt.nrows == nrows && bt.nwa == nwa && bt.nwb == nwb && bt.wa == WA[..] && bt.wb == WB[..]
    requires |m0.a| == A.Length && |m0.b| == B.Length && bt.Fit(A.Length, B.Length) && i < bt.ncols
    requires BlockStart(nwa, nwb, i + 1) <= C.Length
    requires BlockStart(nwa, nwb, i) <= C.Length && Embeddings(A[..], B[..]) == BwdKernel(m0, bt, C[..], lrate, i)
    modifies A, B
    ensures Embeddings(A[..], B[..]) == BwdKernel(m0, bt, C[..], lrate, i + 1)
  {
    ghost var m := Embeddings(A[..], B[..]);
    bt.OffsetsFit(A.Length, B.Length, i);
    ghost var aoffs, boffs := bt.AOffsets(i), bt.BOffsets(i);
    ghost var scores := BlockScores(C[..], nwa, nwb, i);
    BwdPassA(nrows, nwa, nwb, i, WA, WB, A, B, C, lrate, bt, aoffs, boffs, scores, m);
    BwdPassB(nrows, nwa, nwb, i, WA, WB, A, B, C, lrate, bt, aoffs, boffs, scores, m);
  }

  /** The cell `C[j + nwa*(k + nwb*i)]` that holds the score of one combination. */
  method ScoreAt(C: array<real>, nwa: nat, nwb: nat, i: nat, j: nat, k: nat) returns (s: real)
    requires ScoreIndex(nwa, nwb, i, j, k) < C.Length
    ensures s == C[ScoreIndex(nwa, nwb, i, j, k)]
  {
    ScoreIndexIsProduct(nwa, nwb, i, j, k);
    s := C[j + nwa * (k + nwb * i)];
  }

  /** First pass: for each context slot `j`, zero A's column, then add `lrate*C[...] * B[c + ib]` for every paired slot. */
  method BwdPassA(nrows: nat, nwa: nat, nwb: nat, i: nat, WA: array<int>, WB: array<int>,
                  A: array<real>, B: array<real>, C: array<real>, lrate: real,
                  ghost bt: Batch, ghost aoffs: seq<int>, ghost boffs: seq<int>, ghost scores: seq<seq<real>>, ghost m: Embeddings)
    requires A != B && C != A && C != B
    requires OffsetsOf(nrows, nwa, nwb, i, WA, WB, A.Length, B.Length, bt, aoffs, boffs)
    requires m == Embeddings(A[..], B[..]) && Rows(scores, nwa, nwb)
    requires forall j, k :: 0 <= j < nwa && 0 <= k < nwb ==>
               ScoreIndex(nwa, nwb, i, j, k) < C.Length && C[ScoreIndex(nwa, nwb, i, j, k)] == scores[j][k]
    modifies A
    ensures A[..] == BwdStep(m, aoffs, boffs, scores, nrows, lrate).a
  {
    ghost var rows := ARows(scores, nwa, nwb, lrate);
    for j := 0 to nwa
      invariant A[..] == Overwrite(m.a, m.b, aoffs, boffs, rows, nrows, j)
    {
      BwdRowA(nrows, nwa, nwb, i, j, WA, WB, A, B, C, lrate, bt, aoffs, boffs, scores[j], rows[j]);
    }
  }

  /** The context slot `j` of the first pass: zero A's column, then the `k` loop. */
  method BwdRowA(nrows: nat, nwa: nat, nwb: nat, i: nat, j: nat, WA: array<int>, WB: array<int>,
                 A: array<real>, B: array<real>, C: array<real>, lrate: real,
                 ghost bt: Batch, ghost aoffs: seq<int>, ghost boffs: seq<int>, ghost col: seq<real>, ghost row: seq<real>)
    requires A != B && C != A && j < nwa
    requires OffsetsOf(nrows, nwa, nwb, i, WA, WB, A.Length, B.Length, bt, aoffs, boffs)
    requires |col| == nwb && forall k :: 0 <= k < nwb ==> ScoreIndex(nwa, nwb, i, j, k) < C.Length && C[ScoreIndex(nwa, nwb, i, j, k)] == col[k]
    requires row == Weighted(lrate, col)
    modifies A
    ensures A[..] == AddColumns(ZeroColumn(old(A[..]), aoffs[j], nrows), aoffs[j], B[..], boffs, row, nrows)
  {
    var ia := ContextOffset(nrows, nwa, i, j, WA, bt);
    ZeroInPlace(A, ia, nrows);
    ghost var start := A[..];
    for k := 0 to nwb
      invariant A[..] == AddColumns(start, ia, B[..], boffs[..k], row[..k], nrows)
    {
      BwdCellA(nrows, nwa, nwb, i, j, k, ia, WA, WB, A, B, C, lrate, bt, aoffs, boffs, col[k], row, start);
    }
    assert boffs[..nwb] == boffs;
    assert row[..nwb] == row;
  }

  /** Innermost step of the first pass: `A[c + ia] += lrate*C[j + nwa*(k + nwb*i)] * B[c + ib]` for every `c`. */
  method BwdCellA(nrows: nat, nwa: nat, nwb: nat, i: nat, j: nat, k: nat, ia: int, WA: array<int>, WB: array<int>,
                  A: array<real>, B: array<real>, C: array<real>, lrate: real,
                  ghost bt: Batch, ghost aoffs: seq<int>, ghost boffs: seq<int>, ghost score: real, ghost row: seq<real>, ghost start: seq<real>)
    requires A != B && C != A && j < nwa && k < nwb
    requires OffsetsOf(nrows, nwa, nwb, i, WA, WB, A.Length, B.Length, bt, aoffs, boffs)
    requires ScoreIndex(nwa, nwb, i, j, k) < C.Length && C[ScoreIndex(nwa, nwb, i, j, k)] == score
    requires |row| == nwb && row[k] == lrate * score
    requires |start| == A.Length && Fits(ia, nrows, A.Length)
    requires A[..] == AddColumns(start, ia, B[..], boffs[..k], row[..k], nrows)
    modifies A
    ensures A[..] == AddColumns(start, ia, B[..], boffs[..k + 1], row[..k + 1], nrows)
  {
    var ib := PairedOffset(nrows, nwb, i, k, WB, bt);
    var s := ScoreAt(C, nwa, nwb, i, j, k);
    var cv := lrate * s;
    assert ib == boffs[k] && cv == row[k];
    AddColumnsSnoc(start, ia, B[..], boffs, row, nrows, k);
    ghost var prev := A[..];
    AddScaledInPlace(A, ia, cv, B, ib, nrows);
    assert A[..] == AddScaled(prev, ia, row[k], B[..], boffs[k], nrows);
  }

  /** Second pass: for each paired slot `k`, zero B's column, then add `lrate*C[...] * A[c + ia]` for every context slot. */
  method BwdPassB(nrows: nat, nwa: nat, nwb: nat, i: nat, WA: array<int>, WB: array<int>,
                  A: array<real>, B: array<real>, C: array<real>, lrate: real,
                  ghost bt: Batch, ghost aoffs: seq<int>, ghost boffs: seq<int>, ghost scores: seq<seq<real>>, ghost m: Embeddings)
    requires A != B && C != A && C != B
    requires OffsetsOf(nrows, nwa, nwb, i, WA, WB, A.Length, B.Length, bt, aoffs, boffs)
    requires |m.a| == A.Length && m.b == B[..] && Rows(scores, nwa, nwb)
    requires forall j, k :: 0 <= j < nwa && 0 <= k < nwb ==>
               ScoreIndex(nwa, nwb, i, j, k) < C.Length && C[ScoreIndex(nwa, nwb, i, j, k)] == scores[j][k]
    requires A[..] == BwdStep(m, aoffs, boffs, scores, nrows, lrate).a
    modifies B
    ensures B[..] == BwdStep(m, aoffs, boffs, scores, nrows, lrate).b
  {
    ghost var rows := BRows(scores, nwa, nwb, lrate);
    for k := 0 to nwb
      invariant B[..] == Overwrite(m.b, A[..], boffs, aoffs, rows, nrows, k)
    {
      BwdRowB(nrows, nwa, nwb, i, k, WA, WB, A, B, C, lrate, bt, aoffs, boffs, PairedScores(scores, nwa, nwb, k), rows[k]);
    }
  }

  /** The paired slot `k` of the second pass: zero B's column, then the `j` loop. */
  method BwdRowB(nrows: nat, nwa: nat, nwb: nat, i: nat, k: nat, WA: array<int>, WB: array<int>,
                 A: array<real>, B: array<real>, C: array<real>, lrate: real,
                 ghost bt: Batch, ghost aoffs: seq<int>, ghost boffs: seq<int>, ghost col: seq<real>, ghost row: seq<real>)
    requires A != B && C != B && k < nwb
    requires OffsetsOf(nrows, nwa, nwb, i, WA, WB, A.Length, B.Length, bt, aoffs, boffs)
    requires |col| == nwa && forall j :: 0 <= j < nwa ==> ScoreIndex(nwa, nwb, i, j, k) < C.Length && C[ScoreIndex(nwa, nwb, i, j, k)] == col[j]
    requires row == Weighted(lrate, col)
    modifies B
    ensures B[..] == AddColumns(ZeroColumn(old(B[..]), boffs[k], nrows), boffs[k], A[..], aoffs, row, nrows)
  {
    var ib := PairedOffset(nrows, nwb, i, k, WB, bt);
    ZeroInPlace(B, ib, nrows);
    ghost var start := B[..];
    for j := 0 to nwa
      invariant B[..] == AddColumns(start, ib, A[..], aoffs[..j], row[..j], nrows)
    {
      BwdCellB(nrows, nwa, nwb, i, j, k, ib, WA, WB, A, B, C, lrate, bt, aoffs, boffs, col[j], row, start);
    }
    assert aoffs[..nwa] == aoffs;
    assert row[..nwa] == row;
  }

  /** Innermost step of the second pass: `B[c + ib] += lrate*C[j + nwa*(k + nwb*i)] * A[c + ia]` for every `c`. */
  method BwdCellB(nrows: nat, nwa: nat, nwb: nat, i: nat, j: nat, k: nat, ib: int, WA: array<int>, WB: array<int>,
                  A: array<real>, B: array<real>, C: array<real>, lrate: real,
                  ghost bt: Batch, ghost aoffs: seq<int>, ghost boffs: seq<int>, ghost score: real, ghost row: seq<real>, ghost start: seq<real>)
    requires A != B && C != B && j < nwa && k < nwb
    requires OffsetsOf(nrows, nwa, nwb, i, WA, WB, A.Length, B.Length, bt, aoffs, boffs)
    requires ScoreIndex(nwa, nwb, i, j, k) < C.Length && C[ScoreIndex(nwa, nwb, i, j, k)] == score
    requires |row| == nwa && row[j] == lrate * score
    requires |start| == B.Length && Fits(ib, nrows, B.Length)
    requires B[..] == AddColumns(start, ib, A[..], aoffs[..j], row[..j], nrows)
    modifies B
    ensures B[..] == AddColumns(start, ib, A[..], aoffs[..j + 1], row[..j + 1], nrows)
  {
    var ia := ContextOffset(nrows, nwa, i, j, WA, bt);
    var s := ScoreAt(C, nwa, nwb, i, j, k);
    var cv := lrate * s;
    assert ia == aoffs[j] && cv == row[j];
    AddColumnsSnoc(start, ib, A[..], aoffs, row, nrows, j);
    ghost var prev := B[..];
    AddScaledInPlace(B, ib, cv, A, ia, nrows);
    assert B[..] == AddScaled(prev, ib, row[j], A[..], aoffs[j], nrows);
  }
}
