// The forward scorer (`word2vecFwd`): raw dot products of every
// (context, paired) combination of every column, written into the caller's
// buffer C; A and B are only read.

module ForwardScore {
  import opened Embedding

  /** Where the score of column `i`, context slot `j`, paired slot `k` goes: `j + nwa*(k + nwb*i)`. */
  function ScoreIndex(nwa: nat, nwb: nat, i: nat, j: nat, k: nat): nat {
    Slot(nwa, j, Slot(nwb, k, i))
  }

  /** First cell of the block of C that holds the scores of column `i`: `nwa*nwb*i`. */
  function BlockStart(nwa: nat, nwb: nat, i: nat): nat {
    Scale(nwa, Scale(nwb, i))
  }

  lemma BlockStartIsProduct(nwa: nat, nwb: nat, i: nat)
    ensures BlockStart(nwa, nwb, i) == nwa * nwb * i
  {
    ScaleIsProduct(nwb, i);
    ScaleIsProduct(nwa, nwb * i);
    assert nwa * (nwb * i) == nwa * nwb * i;
  }

  /** The cell as the kernel computes it, `j + coff` with `coff = nwa*(k + nwb*i)`. */
  lemma ScoreIndexIsProduct(nwa: nat, nwb: nat, i: nat, j: nat, k: nat)
    ensures ScoreIndex(nwa, nwb, i, j, k) == j + nwa * (k + nwb * i)
  {
    SlotIsProduct(nwb, k, i);
    SlotIsProduct(nwa, j, Slot(nwb, k, i));
  }

  /** The raw score of one combination: A's context column dotted with B's paired column. */
  function RawScore(a: seq<real>, b: seq<real>, bt: Batch, i: nat, j: nat, k: nat): real
    requires bt.Fit(|a|, |b|) && i < bt.ncols && j < bt.nwa && k < bt.nwb
  {
    bt.OffsetsFit(|a|, |b|, i);
    Dot(a, bt.AOffsets(i)[j], b, bt.BOffsets(i)[k], bt.nrows)
  }

  /** The scores of column `i` lie in the block between the starts of columns `i` and `i + 1`. */
  lemma ScoreIndexInBlock(nwa: nat, nwb: nat, i: nat, j: nat, k: nat)
    requires j < nwa && k < nwb
    ensures BlockStart(nwa, nwb, i) <= ScoreIndex(nwa, nwb, i, j, k) < BlockStart(nwa, nwb, i + 1)
  {
    SlotBelow(nwb, i + 1, k, i);
    SlotBelow(nwa, Scale(nwb, i + 1), j, Slot(nwb, k, i));
    ScaleMono(nwa, Scale(nwb, i), Slot(nwb, k, i));
  }

  lemma AllScoreIndicesInBlocks(nwa: nat, nwb: nat)
    ensures forall i: nat, j: nat, k: nat :: j < nwa && k < nwb ==>
              BlockStart(nwa, nwb, i) <= ScoreIndex(nwa, nwb, i, j, k) < BlockStart(nwa, nwb, i + 1)
  {
    forall i: nat, j: nat, k: nat | j < nwa && k < nwb
      ensures BlockStart(nwa, nwb, i) <= ScoreIndex(nwa, nwb, i, j, k) < BlockStart(nwa, nwb, i + 1)
    {
      ScoreIndexInBlock(nwa, nwb, i, j, k);
    }
  }

  /** Blocks of later columns start later. */
  lemma BlockStartMono(nwa: nat, nwb: nat, i: nat, i': nat)
    requires i <= i'
    ensures BlockStart(nwa, nwb, i) <= BlockStart(nwa, nwb, i')
  {
    ScaleMono(nwb, i, i');
    ScaleMono(nwa, Scale(nwb, i), Scale(nwb, i'));
  }

  /** Every combination of the `ncols` columns has its cell below `nwa*nwb*ncols`. */
  lemma ScoreIndexBelow(nwa: nat, nwb: nat, ncols: nat, i: nat, j: nat, k: nat)
    requires i < ncols && j < nwa && k < nwb
    ensures ScoreIndex(nwa, nwb, i, j, k) < nwa * nwb * ncols
  {
    ScoreIndexInBlock(nwa, nwb, i, j, k);
    BlockStartMono(nwa, nwb, i + 1, ncols);
    BlockStartIsProduct(nwa, nwb, ncols);
  }

  /** Distinct combinations never share a cell of C. */
  lemma ScoreIndexInjective(nwa: nat, nwb: nat, i: nat, j: nat, k: nat, i': nat, j': nat, k': nat)
    requires j < nwa && k < nwb && j' < nwa && k' < nwb
    requires ScoreIndex(nwa, nwb, i, j, k) == ScoreIndex(nwa, nwb, i', j', k')
    ensures i == i' && j == j' && k == k'
  {
    SlotInjective(nwa, j, Slot(nwb, k, i), j', Slot(nwb, k', i'));
    SlotInjective(nwb, k, i, k', i');
  }

  /** Every cell below `nwa*nwb*ncols` is the cell of some combination. */
  lemma ScoreCellCovered(nwa: nat, nwb: nat, ncols: nat, t: nat) returns (i: nat, j: nat, k: nat)
    requires t < nwa * nwb * ncols
    ensures i < ncols && j < nwa && k < nwb && ScoreIndex(nwa, nwb, i, j, k) == t
  {
    BlockStartIsProduct(nwa, nwb, ncols);
    var s: nat;
    j, s := SlotSplit(nwa, Scale(nwb, ncols), t);
    k, i := SlotSplit(nwb, ncols, s);
  }

  /**
   * `word2vecFwd`: for every column `i`, context slot `j` and paired slot `k`,
   * `C[j + nwa*(k + nwb*i)]` becomes the raw dot product of the two columns;
   * the rest of C, and A and B, are left as they were.
   */
  method Word2vecFwd(nrows: nat, ncols: nat, nwa: nat, nwb: nat, WA: array<int>, WB: array<int>,
                     A: array<real>, B: array<real>, C: array<real>)
    requires C != A && C != B
    requires nwa * nwb * ncols <= C.Length
    requires Batch(nrows, ncols, nwa, nwb, WA[..], WB[..]).Fit(A.Length, B.Length)
    modifies C
    ensures A[..] == old(A[..]) && B[..] == old(B[..])
    ensures forall i, j, k :: 0 <= i < ncols && 0 <= j < nwa && 0 <= k < nwb ==>
              ScoreIndex(nwa, nwb, i, j, k) < nwa * nwb * ncols &&
              C[ScoreIndex(nwa, nwb, i, j, k)] == RawScore(A[..], B[..], Batch(nrows, ncols, nwa, nwb, WA[..], WB[..]), i, j, k)
    ensures forall t :: nwa * nwb * ncols <= t < C.Length ==> C[t] == old(C[t])
  {
    ghost var bt := Batch(nrows, ncols, nwa, nwb, WA[..], WB[..]);
    ghost var a, b := A[..], B[..];
    BlockStartIsProduct(nwa, nwb, ncols);
    for i := 0 to ncols
      invariant BlockStart(nwa, nwb, i) <= C.Length
      invariant forall i', j, k :: 0 <= i' < i && 0 <= j < nwa && 0 <= k < nwb ==>
                  ScoreIndex(nwa, nwb, i', j, k) < BlockStart(nwa, nwb, i) &&
                  C[ScoreIndex(nwa, nwb, i', j, k)] == RawScore(a, b, bt, i', j, k)
      invariant forall t :: BlockStart(nwa, nwb, i) <= t < C.Length ==> C[t] == old(C[t])
    {
      ghost var before := C[..];
      BlockStartMono(nwa, nwb, i + 1, ncols);
      BlockStartMono(nwa, nwb, i, i + 1);
      ScoreColumn(nrows, ncols, nwa, nwb, i, WA, WB, A, B, C);
      forall i', j, k | 0 <= i' < i && 0 <= j < nwa && 0 <= k < nwb
        ensures ScoreIndex(nwa, nwb, i', j, k) < BlockStart(nwa, nwb, i)
        ensures C[ScoreIndex(nwa, nwb, i', j, k)] == before[ScoreIndex(nwa, nwb, i', j, k)]
      {
        ScoreIndexInBlock(nwa, nwb, i', j, k);
        BlockStartMono(nwa, nwb, i' + 1, i);
      }
    }
  }

  /** One iteration of the outer loop of `word2vecFwd`: fills the block of column `i` and nothing else. */
  method ScoreColumn(nrows: nat, ncols: nat, nwa: nat, nwb: nat, i: nat, WA: array<int>, WB: array<int>,
                     A: array<real>, B: array<real>, C: array<real>)
    requires C != A && C != B
    requires Batch(nrows, ncols, nwa, nwb, WA[..], WB[..]).Fit(A.Length, B.Length) && i < ncols
    requires BlockStart(nwa, nwb, i + 1) <= C.Length
    modifies C
    ensures forall j, k :: 0 <= j < nwa && 0 <= k < nwb ==>
              BlockStart(nwa, nwb, i) <= ScoreIndex(nwa, nwb, i, j, k) < BlockStart(nwa, nwb, i + 1) &&
              C[ScoreIndex(nwa, nwb, i, j, k)] == RawScore(A[..], B[..], Batch(nrows, ncols, nwa, nwb, WA[..], WB[..]), i, j, k)
    ensures forall t :: 0 <= t < C.Length && !(BlockStart(nwa, nwb, i) <= t < BlockStart(nwa, nwb, i + 1)) ==>
              C[t] == old(C[t])
  {
    ghost var bt := Batch(nrows, ncols, nwa, nwb, WA[..], WB[..]);
    ghost var a, b := A[..], B[..];
    AllScoreIndicesInBlocks(nwa, nwb);
    for j := 0 to nwa
      invariant forall j', k :: 0 <= j' < j && 0 <= k < nwb ==>
                  C[ScoreIndex(nwa, nwb, i, j', k)] == RawScore(a, b, bt, i, j', k)
      invariant forall t :: 0 <= t < C.Length && !(BlockStart(nwa, nwb, i) <= t < BlockStart(nwa, nwb, i + 1)) ==>
                  C[t] == old(C[t])
    {
      ScoreRow(nrows, ncols, nwa, nwb, i, j, WA, WB, A, B, C);
    }
  }

  /** The `k` loop of one context slot `j` of column `i`: fills the cells `j + nwa*(k + nwb*i)` and nothing else. */
  method ScoreRow(nrows: nat, ncols: nat, nwa: nat, nwb: nat, i: nat, j: nat, WA: array<int>, WB: array<int>,
                  A: array<real>, B: array<real>, C: array<real>)
    requires C != A && C != B
    requires Batch(nrows, ncols, nwa, nwb, WA[..], WB[..]).Fit(A.Length, B.Length) && i < ncols && j < nwa
    requires BlockStart(nwa, nwb, i + 1) <= C.Length
    modifies C
    ensures forall k :: 0 <= k < nwb ==>
              ScoreIndex(nwa, nwb, i, j, k) < C.Length &&
              C[ScoreIndex(nwa, nwb, i, j, k)] == RawScore(A[..], B[..], Batch(nrows, ncols, nwa, nwb, WA[..], WB[..]), i, j, k)
    ensures forall j', k :: 0 <= j' < nwa && j' != j && 0 <= k < nwb ==>
              ScoreIndex(nwa, nwb, i, j', k) < C.Length &&
              C[ScoreIndex(nwa, nwb, i, j', k)] == old(C[ScoreIndex(nwa, nwb, i, j', k)])
    ensures forall t :: 0 <= t < C.Length && !(BlockStart(nwa, nwb, i) <= t < BlockStart(nwa, nwb, i + 1)) ==>
              C[t] == old(C[t])
  {
    ghost var bt := Batch(nrows, ncols, nwa, nwb, WA[..], WB[..]);
    ghost var a, b := A[..], B[..];
    bt.OffsetsFit(A.Length, B.Length, i);
    AllScoreIndicesInBlocks(nwa, nwb);
    var ia := ContextOffset(nrows, nwa, i, j, WA, bt);
    for k := 0 to nwb
      invariant forall k' :: 0 <= k' < k ==>
                  C[ScoreIndex(nwa, nwb, i, j, k')] == RawScore(a, b, bt, i, j, k')
      invariant forall j', k' :: 0 <= j' < nwa && j' != j && 0 <= k' < nwb ==>
                  C[ScoreIndex(nwa, nwb, i, j', k')] == old(C[ScoreIndex(nwa, nwb, i, j', k')])
      invariant forall t :: 0 <= t < C.Length && !(BlockStart(nwa, nwb, i) <= t < BlockStart(nwa, nwb, i + 1)) ==>
                  C[t] == old(C[t])
    {
      StoreScore(nrows, ncols, nwa, nwb, i, j, k, ia, WA, WB, A, B, C);
    }
  }

  /** Innermost step of `word2vecFwd`: `C[j + coff]` gets the dot product of one combination; nothing else changes. */
  method StoreScore(nrows: nat, ncols: nat, nwa: nat, nwb: nat, i: nat, j: nat, k: nat, ia: int, WA: array<int>, WB: array<int>,
                    A: array<real>, B: array<real>, C: array<real>)
    requires C != A && C != B && i < ncols && j < nwa && k < nwb
    requires Batch(nrows, ncols, nwa, nwb, WA[..], WB[..]).Fit(A.Length, B.Length)
    requires ia == Batch(nrows, ncols, nwa, nwb, WA[..], WB[..]).AOffsets(i)[j]
    requires ScoreIndex(nwa, nwb, i, j, k) < C.Length
    modifies C
    ensures C[ScoreIndex(nwa, nwb, i, j, k)] == RawScore(A[..], B[..], Batch(nrows, ncols, nwa, nwb, WA[..], WB[..]), i, j, k)
    ensures forall t :: 0 <= t < C.Length && t != ScoreIndex(nwa, nwb, i, j, k) ==> C[t] == old(C[t])
    ensures forall j', k' :: 0 <= j' < nwa && 0 <= k' < nwb && (j', k') != (j, k) && ScoreIndex(nwa, nwb, i, j', k') < C.Length ==>
              C[ScoreIndex(nwa, nwb, i, j', k')] == old(C[ScoreIndex(nwa, nwb, i, j', k')])
  {
    ghost var bt := Batch(nrows, ncols, nwa, nwb, WA[..], WB[..]);
    bt.OffsetsFit(A.Length, B.Length, i);
    var ib := PairedOffset(nrows, nwb, i, k, WB, bt);
    var sum := ColumnDot(A, ia, B, ib, nrows);
    ScoreIndexIsProduct(nwa, nwb, i, j, k);
    var coff := nwa * (k + nwb * i);
    C[j + coff] := sum;
    forall j', k' | 0 <= j' < nwa && 0 <= k' < nwb && (j', k') != (j, k) && ScoreIndex(nwa, nwb, i, j', k') < C.Length
      ensures C[ScoreIndex(nwa, nwb, i, j', k')] == old(C[ScoreIndex(nwa, nwb, i, j', k')])
    {
      if ScoreIndex(nwa, nwb, i, j', k') == ScoreIndex(nwa, nwb, i, j, k) {
        ScoreIndexInjective(nwa, nwb, i, j, k, i, j', k');
      }
    }
  }
}
