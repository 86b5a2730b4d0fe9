// The embedding store and the index arithmetic shared by the four kernels.
//
// A matrix is a flat buffer; a column of `n` cells starting at offset `off`
// occupies cells `off .. off + n - 1`. The specification side works on
// `seq<real>` snapshots of the buffers; the in-place loops that every kernel
// runs over one column are the methods at the end of the module.
//
// ContextOffset and PairedOffset stand for no function of the C code: each
// computes one offset `nrows*WA[j+i*nwa]` or `nrows*WB[k+i*nwb]` as a method
// of its own, so that the product of two variables and its link to the
// specification's `AOffsets`/`BOffsets` are proved once instead of inside
// every loop that reads an offset.

module Embedding {

  /** Snapshot of the two matrices: `a` holds the input vectors, `b` the output vectors. */
  datatype Embeddings = Embeddings(a: seq<real>, b: seq<real>)

  /** A column of `n` cells at offset `off` lies inside a buffer of length `len` (no cell is touched when `n == 0`). */
  predicate Fits(off: int, n: nat, len: int) {
    n == 0 || (0 <= off && off + n <= len)
  }

  predicate AllFit(offs: seq<int>, n: nat, len: int) {
    forall t :: 0 <= t < |offs| ==> Fits(offs[t], n, len)
  }

  /** Cell `p` belongs to the column of `n` cells at `off`. */
  predicate InColumn(p: int, off: int, n: nat) {
    off <= p < off + n
  }

  /** The columns at `p` and `q` share no cell. */
  predicate Disjoint(p: int, q: int, n: nat) {
    p + n <= q || q + n <= p
  }

  // ---------------------------------------------------------------------
  // Flat index arithmetic: slot `j` of group `k` in groups of width `w`.

  /**
   * `w * k` as repeated addition. The index lemmas reason about this form,
   * which keeps products of variables out of the verifier's arithmetic;
   * ScaleIsProduct connects it to the products the kernels compute.
   */
  function Scale(w: nat, k: nat): nat {
    if k == 0 then 0 else Scale(w, k - 1) + w
  }

  lemma {:induction false} ScaleIsProduct(w: nat, k: nat)
    ensures Scale(w, k) == w * k
  {
    if k > 0 {
      ScaleIsProduct(w, k - 1);
      assert w * k == w * (k - 1) + w;
    }
  }

  /** Groups further along start at least one whole group later. */
  lemma {:induction false} ScaleMono(w: nat, u: nat, v: nat)
    requires u <= v
    ensures Scale(w, u) <= Scale(w, v)
    ensures u < v ==> Scale(w, u) + w <= Scale(w, v)
    decreases v
  {
    if u < v {
      ScaleMono(w, u, v - 1);
    }
  }

  /** `j + w*k`: the layout of `WA[j + i*nwa]`, `C[j + nwa*k]` and `C[j + nwa*(k + nwb*i)]`. */
  function Slot(w: nat, j: nat, k: nat): nat {
    j + Scale(w, k)
  }

  /** The slot as the kernels compute it, in either order of the product. */
  lemma SlotIsProduct(w: nat, j: nat, k: nat)
    ensures Slot(w, j, k) == j + k * w == j + w * k
  {
    ScaleIsProduct(w, k);
  }

  lemma SlotBelow(w: nat, h: nat, j: nat, k: nat)
    requires j < w && k < h
    ensures Slot(w, j, k) < Scale(w, h)
  {
    ScaleMono(w, k, h);
  }

  /** Distinct (slot, group) pairs of the same width land on distinct indices. */
  lemma SlotInjective(w: nat, j: nat, k: nat, j': nat, k': nat)
    requires j < w && j' < w
    requires Slot(w, j, k) == Slot(w, j', k')
    ensures j == j' && k == k'
  {
    if k < k' {
      ScaleMono(w, k, k');
    } else if k' < k {
      ScaleMono(w, k', k);
    }
  }

  /** Every index below `w*h` is the slot of some pair (computed without division). */
  lemma {:induction false} SlotSplit(w: nat, h: nat, t: nat) returns (j: nat, k: nat)
    requires t < Scale(w, h)
    ensures j < w && k < h && Slot(w, j, k) == t
    decreases h
  {
    if t < w {
      j, k := t, 0;
    } else {
      var j0, k0 := SlotSplit(w, h - 1, t - w);
      j, k := j0, k0 + 1;
    }
  }

  /** Multiplying by `w` keeps distinct integers at least `w` apart. */
  lemma MulGap(w: nat, u: int, v: int)
    requires u < v
    ensures w * v >= w * u + w
  {
    var e: nat := v - u - 1;
    assert w * v == w * u + w * e + w;
  }

  /** `n * id`, the offset of column `id` of a matrix with `n` rows, as repeated addition like Scale. */
  function ColumnStart(n: nat, id: int): int {
    if id >= 0 then Scale(n, id) else -(Scale(n, -id) as int)
  }

  lemma ColumnStartIsProduct(n: nat, id: int)
    ensures ColumnStart(n, id) == n * id
  {
    if id >= 0 {
      ScaleIsProduct(n, id);
    } else {
      ScaleIsProduct(n, -id);
    }
  }

  /** Columns of distinct ids never overlap. */
  lemma ColumnsDisjoint(n: nat, u: int, v: int)
    requires u != v
    ensures Disjoint(ColumnStart(n, u), ColumnStart(n, v), n)
  {
    ColumnStartIsProduct(n, u);
    ColumnStartIsProduct(n, v);
    if u < v {
      MulGap(n, u, v);
    } else {
      MulGap(n, v, u);
    }
  }

  /**
   * Shape and ids of a batch for the pair kernels: `ncols` columns, each with
   * `nwa` context ids `wa[j + i*nwa]` and `nwb` paired ids `wb[k + i*nwb]`.
   */
  datatype Batch = Batch(nrows: nat, ncols: nat, nwa: nat, nwb: nat, wa: seq<int>, wb: seq<int>)
  {
    /** The id arrays hold every id the kernels read: `nwa*ncols` context ids and `nwb*ncols` paired ids. */
    predicate WellFormed() {
      Scale(nwa, ncols) <= |wa| && Scale(nwb, ncols) <= |wb|
    }

    /** Every id read addresses a whole column, `nrows * id`, inside A (context ids) or B (paired ids). */
    predicate Fit(lenA: int, lenB: int) {
      WellFormed()
      && (forall t :: 0 <= t < Scale(nwa, ncols) ==> Fits(ColumnStart(nrows, wa[t]), nrows, lenA))
      && (forall t :: 0 <= t < Scale(nwb, ncols) ==> Fits(ColumnStart(nrows, wb[t]), nrows, lenB))
    }

    /** Id of context slot `j` of column `i`: `WA[j + i*nwa]`. */
    function AId(i: nat, j: nat): int
      requires WellFormed() && i < ncols && j < nwa
    {
      SlotBelow(nwa, ncols, j, i);
      wa[Slot(nwa, j, i)]
    }

    /** Id of paired slot `k` of column `i`: `WB[k + i*nwb]`. */
    function BId(i: nat, k: nat): int
      requires WellFormed() && i < ncols && k < nwb
    {
      SlotBelow(nwb, ncols, k, i);
      wb[Slot(nwb, k, i)]
    }

    /** Offsets of the A columns of column `i`, in slot order. */
    function AOffsets(i: nat): (offs: seq<int>)
      requires WellFormed() && i < ncols
      ensures |offs| == nwa
      ensures forall j :: 0 <= j < nwa ==> offs[j] == ColumnStart(nrows, AId(i, j))
    {
      seq(nwa, j requires 0 <= j < nwa => ColumnStart(nrows, AId(i, j)))
    }

    /** Offsets of the B columns of column `i`, in slot order. */
    function BOffsets(i: nat): (offs: seq<int>)
      requires WellFormed() && i < ncols
      ensures |offs| == nwb
      ensures forall k :: 0 <= k < nwb ==> offs[k] == ColumnStart(nrows, BId(i, k))
    {
      seq(nwb, k requires 0 <= k < nwb => ColumnStart(nrows, BId(i, k)))
    }

    lemma OffsetsFit(lenA: int, lenB: int, i: nat)
      requires Fit(lenA, lenB) && i < ncols
      ensures AllFit(AOffsets(i), nrows, lenA) && AllFit(BOffsets(i), nrows, lenB)
    {
      forall j | 0 <= j < nwa ensures Fits(AOffsets(i)[j], nrows, lenA) {
        SlotBelow(nwa, ncols, j, i);
      }
      forall k | 0 <= k < nwb ensures Fits(BOffsets(i)[k], nrows, lenB) {
        SlotBelow(nwb, ncols, k, i);
      }
    }
  }

  /** `ia = nrows*WA[j + i*nwa]`: where the kernels find context slot `j` of column `i` in A. */
  method ContextOffset(nrows: nat, nwa: nat, i: nat, j: nat, WA: array<int>, ghost bt: Batch) returns (ia: int)
    requires bt.WellFormed() && bt.nrows == nrows && bt.nwa == nwa && bt.wa == WA[..] && i < bt.ncols && j < nwa
    ensures ia == bt.AOffsets(i)[j]
  {
    SlotBelow(nwa, bt.ncols, j, i);
    SlotIsProduct(nwa, j, i);
    ColumnStartIsProduct(nrows, WA[j + i * nwa]);
    ia := nrows * WA[j + i * nwa];
  }

  /** `ib = nrows*WB[k + i*nwb]`: where the kernels find paired slot `k` of column `i` in B. */
  method PairedOffset(nrows: nat, nwb: nat, i: nat, k: nat, WB: array<int>, ghost bt: Batch) returns (ib: int)
    requires bt.WellFormed() && bt.nrows == nrows && bt.nwb == nwb && bt.wb == WB[..] && i < bt.ncols && k < nwb
    ensures ib == bt.BOffsets(i)[k]
  {
    SlotBelow(nwb, bt.ncols, k, i);
    SlotIsProduct(nwb, k, i);
    ColumnStartIsProduct(nrows, WB[k + i * nwb]);
    ib := nrows * WB[k + i * nwb];
  }

  /** The offsets `aoffs` and `boffs` are those the kernel computes for column `i` of the batch held in WA and WB. */
  predicate OffsetsOf(nrows: nat, nwa: nat, nwb: nat, i: nat, WA: array<int>, WB: array<int>, lenA: int, lenB: int,
                      bt: Batch, aoffs: seq<int>, boffs: seq<int>)
    reads WA, WB
  {
    bt.nrows == nrows && bt.nwa == nwa && bt.nwb == nwb && bt.wa == WA[..] && bt.wb == WB[..]
    && bt.WellFormed() && i < bt.ncols
    && aoffs == bt.AOffsets(i) && boffs == bt.BOffsets(i)
    && AllFit(aoffs, nrows, lenA) && AllFit(boffs, nrows, lenB)
  }

  // ---------------------------------------------------------------------
  // Specification functions over buffer snapshots.

  /** Dot product of two columns, summed from cell 0 upwards as the kernels' `c` loops do. */
  function Dot(a: seq<real>, ia: int, b: seq<real>, ib: int, n: nat): real
    requires Fits(ia, n, |a|) && Fits(ib, n, |b|)
  {
    if n == 0 then 0.0 else Dot(a, ia, b, ib, n - 1) + a[ia + n - 1] * b[ib + n - 1]
  }

  /** `x` after `x[ix + c] += cv * y[iy + c]` for every `c < n`. */
  function AddScaled(x: seq<real>, ix: int, cv: real, y: seq<real>, iy: int, n: nat): (r: seq<real>)
    requires Fits(ix, n, |x|) && Fits(iy, n, |y|)
    ensures |r| == |x|
  {
    seq(|x|, p requires 0 <= p < |x| => if InColumn(p, ix, n) then x[p] + cv * y[iy + (p - ix)] else x[p])
  }

  /** `x` after `x[ix + c] = 0` for every `c < n`. */
  function ZeroColumn(x: seq<real>, ix: int, n: nat): (r: seq<real>)
    requires Fits(ix, n, |x|)
    ensures |r| == |x|
  {
    seq(|x|, p requires 0 <= p < |x| => if InColumn(p, ix, n) then 0.0 else x[p])
  }

  /**
   * `x` after one loop over sources `k`, in order, each adding
   * `coefs[k] * y[yoffs[k] + c]` to `x[ix + c]`.
   */
  function AddColumns(x: seq<real>, ix: int, y: seq<real>, yoffs: seq<int>, coefs: seq<real>, n: nat): (r: seq<real>)
    requires Fits(ix, n, |x|) && AllFit(yoffs, n, |y|) && |coefs| == |yoffs|
    ensures |r| == |x|
    decreases |yoffs|
  {
    if |yoffs| == 0 then x
    else
      var m := |yoffs| - 1;
      AddScaled(AddColumns(x, ix, y, yoffs[..m], coefs[..m], n), ix, coefs[m], y, yoffs[m], n)
  }

  /** Extending the sources by one runs one more AddScaled: the step of every source loop. */
  lemma AddColumnsSnoc(x: seq<real>, ix: int, y: seq<real>, yoffs: seq<int>, coefs: seq<real>, n: nat, k: nat)
    requires Fits(ix, n, |x|) && AllFit(yoffs, n, |y|) && |coefs| == |yoffs| && k < |yoffs|
    ensures AddColumns(x, ix, y, yoffs[..k + 1], coefs[..k + 1], n)
            == AddScaled(AddColumns(x, ix, y, yoffs[..k], coefs[..k], n), ix, coefs[k], y, yoffs[k], n)
  {
    assert yoffs[..k + 1][..k] == yoffs[..k];
    assert coefs[..k + 1][..k] == coefs[..k];
  }

  /** Cell `c` of the weighted sum of the source columns: `sum_k coefs[k] * y[yoffs[k] + c]`. */
  function Combo(y: seq<real>, yoffs: seq<int>, coefs: seq<real>, c: nat, n: nat): real
    requires c < n && AllFit(yoffs, n, |y|) && |coefs| == |yoffs|
    decreases |yoffs|
  {
    if |yoffs| == 0 then 0.0
    else
      var m := |yoffs| - 1;
      Combo(y, yoffs[..m], coefs[..m], c, n) + coefs[m] * y[yoffs[m] + c]
  }

  /** AddColumns adds the weighted sum to every cell of the target column and touches nothing else. */
  lemma {:induction false} AddColumnsAt(x: seq<real>, ix: int, y: seq<real>, yoffs: seq<int>, coefs: seq<real>, n: nat, p: int)
    requires Fits(ix, n, |x|) && AllFit(yoffs, n, |y|) && |coefs| == |yoffs|
    requires 0 <= p < |x|
    ensures AddColumns(x, ix, y, yoffs, coefs, n)[p]
            == if InColumn(p, ix, n) then x[p] + Combo(y, yoffs, coefs, p - ix, n) else x[p]
    decreases |yoffs|
  {
    if |yoffs| > 0 {
      var m := |yoffs| - 1;
      AddColumnsAt(x, ix, y, yoffs[..m], coefs[..m], n, p);
      var prev := AddColumns(x, ix, y, yoffs[..m], coefs[..m], n);
      assert AddColumns(x, ix, y, yoffs, coefs, n) == AddScaled(prev, ix, coefs[m], y, yoffs[m], n);
      if InColumn(p, ix, n) {
        assert Combo(y, yoffs, coefs, p - ix, n)
            == Combo(y, yoffs[..m], coefs[..m], p - ix, n) + coefs[m] * y[yoffs[m] + (p - ix)];
      }
    }
  }

  /** Shape of a table of coefficient rows: `count` rows of `width` entries each. */
  predicate Rows(rows: seq<seq<real>>, count: nat, width: nat) {
    |rows| == count && forall t :: 0 <= t < |rows| ==> |rows[t]| == width
  }

  /**
   * Additive pass over target slots `0 .. s-1`: slot `t` adds, into the
   * column `xoffs[t]` of `x`, the row `rows[t]` of weights applied to the
   * columns `yoffs` of `y` (the `+=` passes of the pair kernel).
   */
  function Accumulate(x: seq<real>, y: seq<real>, xoffs: seq<int>, yoffs: seq<int>, rows: seq<seq<real>>, n: nat, s: nat): (r: seq<real>)
    requires s <= |xoffs| && Rows(rows, |xoffs|, |yoffs|)
    requires AllFit(xoffs, n, |x|) && AllFit(yoffs, n, |y|)
    ensures |r| == |x|
    decreases s
  {
    if s == 0 then x
    else AddColumns(Accumulate(x, y, xoffs, yoffs, rows, n, s - 1), xoffs[s - 1], y, yoffs, rows[s - 1], n)
  }

  /**
   * Overwriting pass over target slots `0 .. s-1`: slot `t` zeroes the column
   * `xoffs[t]` of `x`, then adds the weighted sum into it (the backward kernel).
   */
  function Overwrite(x: seq<real>, y: seq<real>, xoffs: seq<int>, yoffs: seq<int>, rows: seq<seq<real>>, n: nat, s: nat): (r: seq<real>)
    requires s <= |xoffs| && Rows(rows, |xoffs|, |yoffs|)
    requires AllFit(xoffs, n, |x|) && AllFit(yoffs, n, |y|)
    ensures |r| == |x|
    decreases s
  {
    if s == 0 then x
    else
      var z := ZeroColumn(Overwrite(x, y, xoffs, yoffs, rows, n, s - 1), xoffs[s - 1], n);
      AddColumns(z, xoffs[s - 1], y, yoffs, rows[s - 1], n)
  }

  /** What the first `s` slots of an additive pass add to cell `p`. */
  function Contribution(y: seq<real>, xoffs: seq<int>, yoffs: seq<int>, rows: seq<seq<real>>, n: nat, s: nat, p: int): real
    requires s <= |xoffs| && Rows(rows, |xoffs|, |yoffs|) && AllFit(yoffs, n, |y|)
    decreases s
  {
    if s == 0 then 0.0
    else
      var t := s - 1;
      Contribution(y, xoffs, yoffs, rows, n, t, p)
        + (if InColumn(p, xoffs[t], n) then Combo(y, yoffs, rows[t], p - xoffs[t], n) else 0.0)
  }

  /** An additive pass leaves every cell at its old value plus what the slots covering it add. */
  lemma {:induction false} AccumulateAt(x: seq<real>, y: seq<real>, xoffs: seq<int>, yoffs: seq<int>, rows: seq<seq<real>>, n: nat, s: nat, p: int)
    requires s <= |xoffs| && Rows(rows, |xoffs|, |yoffs|)
    requires AllFit(xoffs, n, |x|) && AllFit(yoffs, n, |y|)
    requires 0 <= p < |x|
    ensures Accumulate(x, y, xoffs, yoffs, rows, n, s)[p] == x[p] + Contribution(y, xoffs, yoffs, rows, n, s, p)
    decreases s
  {
    if s > 0 {
      AccumulateAt(x, y, xoffs, yoffs, rows, n, s - 1, p);
      AddColumnsAt(Accumulate(x, y, xoffs, yoffs, rows, n, s - 1), xoffs[s - 1], y, yoffs, rows[s - 1], n, p);
    }
  }

  /** Cell `p` lies in none of the first `s` target columns. */
  predicate Untouched(p: int, xoffs: seq<int>, s: nat, n: nat)
    requires s <= |xoffs|
  {
    forall t :: 0 <= t < s ==> !InColumn(p, xoffs[t], n)
  }

  /** An additive pass changes no cell outside its target columns. */
  lemma {:induction false} AccumulateFrame(x: seq<real>, y: seq<real>, xoffs: seq<int>, yoffs: seq<int>, rows: seq<seq<real>>, n: nat, s: nat, p: int)
    requires s <= |xoffs| && Rows(rows, |xoffs|, |yoffs|)
    requires AllFit(xoffs, n, |x|) && AllFit(yoffs, n, |y|)
    requires 0 <= p < |x| && Untouched(p, xoffs, s, n)
    ensures Accumulate(x, y, xoffs, yoffs, rows, n, s)[p] == x[p]
    decreases s
  {
    if s > 0 {
      AccumulateFrame(x, y, xoffs, yoffs, rows, n, s - 1, p);
      AddColumnsAt(Accumulate(x, y, xoffs, yoffs, rows, n, s - 1), xoffs[s - 1], y, yoffs, rows[s - 1], n, p);
    }
  }

  /** With no source columns an additive pass changes nothing. */
  lemma {:induction false} AccumulateWithoutSources(x: seq<real>, y: seq<real>, xoffs: seq<int>, yoffs: seq<int>, rows: seq<seq<real>>, n: nat, s: nat)
    requires s <= |xoffs| && Rows(rows, |xoffs|, |yoffs|)
    requires AllFit(xoffs, n, |x|) && AllFit(yoffs, n, |y|)
    requires |yoffs| == 0
    ensures Accumulate(x, y, xoffs, yoffs, rows, n, s) == x
    decreases s
  {
    if s > 0 {
      AccumulateWithoutSources(x, y, xoffs, yoffs, rows, n, s - 1);
    }
  }

  /** An overwriting pass changes no cell outside its target columns. */
  lemma {:induction false} OverwriteFrame(x: seq<real>, y: seq<real>, xoffs: seq<int>, yoffs: seq<int>, rows: seq<seq<real>>, n: nat, s: nat, p: int)
    requires s <= |xoffs| && Rows(rows, |xoffs|, |yoffs|)
    requires AllFit(xoffs, n, |x|) && AllFit(yoffs, n, |y|)
    requires 0 <= p < |x| && Untouched(p, xoffs, s, n)
    ensures Overwrite(x, y, xoffs, yoffs, rows, n, s)[p] == x[p]
    decreases s
  {
    if s > 0 {
      OverwriteFrame(x, y, xoffs, yoffs, rows, n, s - 1, p);
      var z := ZeroColumn(Overwrite(x, y, xoffs, yoffs, rows, n, s - 1), xoffs[s - 1], n);
      AddColumnsAt(z, xoffs[s - 1], y, yoffs, rows[s - 1], n, p);
    }
  }

  /**
   * Overwrite semantics: once slot `t` has run and no later slot up to `s`
   * shares a cell with its column, that column holds exactly the weighted sum
   * of slot `t`, whatever it held before.
   */
  lemma {:induction false} OverwriteLast(x: seq<real>, y: seq<real>, xoffs: seq<int>, yoffs: seq<int>, rows: seq<seq<real>>, n: nat, s: nat, t: nat, c: nat)
    requires s <= |xoffs| && Rows(rows, |xoffs|, |yoffs|)
    requires AllFit(xoffs, n, |x|) && AllFit(yoffs, n, |y|)
    requires t < s && c < n
    requires forall t' :: t < t' < s ==> Disjoint(xoffs[t'], xoffs[t], n)
    ensures Overwrite(x, y, xoffs, yoffs, rows, n, s)[xoffs[t] + c] == Combo(y, yoffs, rows[t], c, n)
    decreases s
  {
    var p := xoffs[t] + c;
    var prev := Overwrite(x, y, xoffs, yoffs, rows, n, s - 1);
    var z := ZeroColumn(prev, xoffs[s - 1], n);
    AddColumnsAt(z, xoffs[s - 1], y, yoffs, rows[s - 1], n, p);
    if t < s - 1 {
      OverwriteLast(x, y, xoffs, yoffs, rows, n, s - 1, t, c);
      assert !InColumn(p, xoffs[s - 1], n) by { assert Disjoint(xoffs[s - 1], xoffs[t], n); }
    }
  }

  /**
   * With no source columns an overwriting pass only zeroes: every target
   * column ends at 0 and every other cell keeps its value.
   */
  lemma {:induction false} OverwriteWithoutSources(x: seq<real>, y: seq<real>, xoffs: seq<int>, yoffs: seq<int>, rows: seq<seq<real>>, n: nat, s: nat, p: int)
    requires s <= |xoffs| && Rows(rows, |xoffs|, |yoffs|)
    requires AllFit(xoffs, n, |x|) && AllFit(yoffs, n, |y|)
    requires |yoffs| == 0 && 0 <= p < |x|
    ensures Overwrite(x, y, xoffs, yoffs, rows, n, s)[p] == if Untouched(p, xoffs, s, n) then x[p] else 0.0
    decreases s
  {
    if s > 0 {
      OverwriteWithoutSources(x, y, xoffs, yoffs, rows, n, s - 1, p);
      var z := ZeroColumn(Overwrite(x, y, xoffs, yoffs, rows, n, s - 1), xoffs[s - 1], n);
      AddColumnsAt(z, xoffs[s - 1], y, yoffs, rows[s - 1], n, p);
      if !Untouched(p, xoffs, s - 1, n) {
        assert !Untouched(p, xoffs, s, n);
      } else if InColumn(p, xoffs[s - 1], n) {
        assert !Untouched(p, xoffs, s, n);
      } else {
        assert Untouched(p, xoffs, s, n);
      }
    }
  }

  // ---------------------------------------------------------------------
  // Weight tables and the cells a batch can touch.

  /** A score row scaled by the learning rate, as the passes read it: `lrate * C[...]`. */
  function Weighted(lrate: real, col: seq<real>): (w: seq<real>)
    ensures |w| == |col| && forall t :: 0 <= t < |col| ==> w[t] == lrate * col[t]
  {
    seq(|col|, t requires 0 <= t < |col| => lrate * col[t])
  }

  /** The scores of paired slot `k` against every context slot, `C[j + nwa*k]` for `j < na`. */
  function PairedScores(scores: seq<seq<real>>, na: nat, nb: nat, k: nat): (col: seq<real>)
    requires Rows(scores, na, nb) && k < nb
    ensures |col| == na && forall j :: 0 <= j < na ==> col[j] == scores[j][k]
  {
    seq(na, j requires 0 <= j < na => scores[j][k])
  }

  /** Weights of the A pass: row `j` holds `lrate` times the score of context slot `j` with each paired slot `k`. */
  function ARows(scores: seq<seq<real>>, na: nat, nb: nat, lrate: real): (rows: seq<seq<real>>)
    requires Rows(scores, na, nb)
    ensures Rows(rows, na, nb)
    ensures forall j :: 0 <= j < na ==> rows[j] == Weighted(lrate, scores[j])
  {
    seq(na, j requires 0 <= j < na => Weighted(lrate, scores[j]))
  }

  /** Weights of the B pass: row `k` holds `lrate` times the score of each context slot `j` with paired slot `k` (the transposed table). */
  function BRows(scores: seq<seq<real>>, na: nat, nb: nat, lrate: real): (rows: seq<seq<real>>)
    requires Rows(scores, na, nb)
    ensures Rows(rows, nb, na)
    ensures forall k :: 0 <= k < nb ==> rows[k] == Weighted(lrate, PairedScores(scores, na, nb, k))
  {
    seq(nb, k requires 0 <= k < nb => Weighted(lrate, PairedScores(scores, na, nb, k)))
  }

  /** Cell `p` of A lies in no context column named by the first `n` columns of the batch. */
  predicate OutsideA(bt: Batch, n: nat, p: int)
    requires bt.WellFormed() && n <= bt.ncols
  {
    ScaleMono(bt.nwa, n, bt.ncols);
    forall t :: 0 <= t < Scale(bt.nwa, n) ==> !InColumn(p, ColumnStart(bt.nrows, bt.wa[t]), bt.nrows)
  }

  /** Cell `q` of B lies in no paired column named by the first `n` columns of the batch. */
  predicate OutsideB(bt: Batch, n: nat, q: int)
    requires bt.WellFormed() && n <= bt.ncols
  {
    ScaleMono(bt.nwb, n, bt.ncols);
    forall t :: 0 <= t < Scale(bt.nwb, n) ==> !InColumn(q, ColumnStart(bt.nrows, bt.wb[t]), bt.nrows)
  }

  /** Column `i` does not touch cells outside the columns that the ids of columns `0 .. i` name. */
  lemma ColumnOutside(bt: Batch, i: nat, p: int, q: int)
    requires bt.WellFormed() && i < bt.ncols
    requires OutsideA(bt, i + 1, p) && OutsideB(bt, i + 1, q)
    ensures OutsideA(bt, i, p) && OutsideB(bt, i, q)
    ensures Untouched(p, bt.AOffsets(i), bt.nwa, bt.nrows) && Untouched(q, bt.BOffsets(i), bt.nwb, bt.nrows)
  {
    ScaleMono(bt.nwa, i, i + 1);
    ScaleMono(bt.nwb, i, i + 1);
    ScaleMono(bt.nwa, i + 1, bt.ncols);
    ScaleMono(bt.nwb, i + 1, bt.ncols);
    forall j | 0 <= j < bt.nwa ensures !InColumn(p, bt.AOffsets(i)[j], bt.nrows) {
      SlotBelow(bt.nwa, i + 1, j, i);
      assert bt.AId(i, j) == bt.wa[Slot(bt.nwa, j, i)];
    }
    forall k | 0 <= k < bt.nwb ensures !InColumn(q, bt.BOffsets(i)[k], bt.nrows) {
      SlotBelow(bt.nwb, i + 1, k, i);
      assert bt.BId(i, k) == bt.wb[Slot(bt.nwb, k, i)];
    }
  }

  /** Outside the context columns of the first `i + 1` columns means outside those of the first `i` and of column `i`. */
  lemma OutsideAStep(bt: Batch, i: nat, p: int)
    requires bt.WellFormed() && i < bt.ncols
    ensures OutsideA(bt, i + 1, p) <==> OutsideA(bt, i, p) && Untouched(p, bt.AOffsets(i), bt.nwa, bt.nrows)
  {
    ScaleMono(bt.nwa, i, i + 1);
    ScaleMono(bt.nwa, i + 1, bt.ncols);
    var lo := Scale(bt.nwa, i);
    assert Scale(bt.nwa, i + 1) == lo + bt.nwa;
    if OutsideA(bt, i + 1, p) {
      forall j | 0 <= j < bt.nwa ensures !InColumn(p, bt.AOffsets(i)[j], bt.nrows) {
        SlotBelow(bt.nwa, i + 1, j, i);
        assert bt.AId(i, j) == bt.wa[Slot(bt.nwa, j, i)];
      }
    }
    if OutsideA(bt, i, p) && Untouched(p, bt.AOffsets(i), bt.nwa, bt.nrows) {
      forall t | 0 <= t < Scale(bt.nwa, i + 1) ensures !InColumn(p, ColumnStart(bt.nrows, bt.wa[t]), bt.nrows) {
        if t >= lo {
          var j := t - lo;
          assert Slot(bt.nwa, j, i) == t;
          assert bt.AOffsets(i)[j] == ColumnStart(bt.nrows, bt.wa[t]);
        }
      }
    }
  }

  // ---------------------------------------------------------------------
  /** Slot `j` of column `i` is the last slot of WA, up to the end of column `n - 1`, that names its id. */
  predicate LastContextSlot(bt: Batch, n: nat, i: nat, j: nat)
    requires bt.WellFormed() && i < n <= bt.ncols && j < bt.nwa
  {
    ScaleMono(bt.nwa, n, bt.ncols);
    forall t :: Slot(bt.nwa, j, i) < t < Scale(bt.nwa, n) ==> bt.wa[t] != bt.AId(i, j)
  }

  /** Outside the paired columns of the first `i + 1` columns means outside those of the first `i` and of column `i`. */
  lemma OutsideBStep(bt: Batch, i: nat, q: int)
    requires bt.WellFormed() && i < bt.ncols
    ensures OutsideB(bt, i + 1, q) <==> OutsideB(bt, i, q) && Untouched(q, bt.BOffsets(i), bt.nwb, bt.nrows)
  {
    ScaleMono(bt.nwb, i, i + 1);
    ScaleMono(bt.nwb, i + 1, bt.ncols);
    var lo := Scale(bt.nwb, i);
    assert Scale(bt.nwb, i + 1) == lo + bt.nwb;
    if OutsideB(bt, i + 1, q) {
      forall k | 0 <= k < bt.nwb ensures !InColumn(q, bt.BOffsets(i)[k], bt.nrows) {
        SlotBelow(bt.nwb, i + 1, k, i);
        assert bt.BId(i, k) == bt.wb[Slot(bt.nwb, k, i)];
      }
    }
    if OutsideB(bt, i, q) && Untouched(q, bt.BOffsets(i), bt.nwb, bt.nrows) {
      forall t | 0 <= t < Scale(bt.nwb, i + 1) ensures !InColumn(q, ColumnStart(bt.nrows, bt.wb[t]), bt.nrows) {
        if t >= lo {
          var k := t - lo;
          assert Slot(bt.nwb, k, i) == t;
          assert bt.BOffsets(i)[k] == ColumnStart(bt.nrows, bt.wb[t]);
        }
      }
    }
  }

  /** Slot `k` of column `i` is the last slot of WB, up to the end of column `n - 1`, that names its id. */
  predicate LastPairedSlot(bt: Batch, n: nat, i: nat, k: nat)
    requires bt.WellFormed() && i < n <= bt.ncols && k < bt.nwb
  {
    ScaleMono(bt.nwb, n, bt.ncols);
    forall t :: Slot(bt.nwb, k, i) < t < Scale(bt.nwb, n) ==> bt.wb[t] != bt.BId(i, k)
  }

  /** The last context slot naming an id is, in particular, the last one of its own column. */
  lemma LastContextSlotInColumn(bt: Batch, n: nat, i: nat, j: nat)
    requires bt.WellFormed() && i < n <= bt.ncols && j < bt.nwa && LastContextSlot(bt, n, i, j)
    ensures forall j' :: j < j' < bt.nwa ==> bt.AId(i, j') != bt.AId(i, j)
  {
    ScaleMono(bt.nwa, n, bt.ncols);
    forall j' | j < j' < bt.nwa ensures bt.AId(i, j') != bt.AId(i, j) {
      SlotBelow(bt.nwa, n, j', i);
    }
  }

  /** The last paired slot naming an id is, in particular, the last one of its own column. */
  lemma LastPairedSlotInColumn(bt: Batch, n: nat, i: nat, k: nat)
    requires bt.WellFormed() && i < n <= bt.ncols && k < bt.nwb && LastPairedSlot(bt, n, i, k)
    ensures forall k' :: k < k' < bt.nwb ==> bt.BId(i, k') != bt.BId(i, k)
  {
    ScaleMono(bt.nwb, n, bt.ncols);
    forall k' | k < k' < bt.nwb ensures bt.BId(i, k') != bt.BId(i, k) {
      SlotBelow(bt.nwb, n, k', i);
    }
  }

  /** A cell of the last context column naming an id lies outside the context columns of every later column. */
  lemma LaterColumnsMissA(bt: Batch, n: nat, i: nat, j: nat, r: nat)
    requires bt.WellFormed() && i < n <= bt.ncols && j < bt.nwa && r < bt.nrows && LastContextSlot(bt, n, i, j)
    ensures forall i' :: i + 1 <= i' < n ==> Untouched(bt.AOffsets(i)[j] + r, bt.AOffsets(i'), bt.nwa, bt.nrows)
  {
    ScaleMono(bt.nwa, n, bt.ncols);
    var p := bt.AOffsets(i)[j] + r;
    forall i', j' | i < i' < n && 0 <= j' < bt.nwa ensures !InColumn(p, bt.AOffsets(i')[j'], bt.nrows) {
      ScaleMono(bt.nwa, i, i');
      SlotBelow(bt.nwa, n, j', i');
      ColumnsDisjoint(bt.nrows, bt.AId(i', j'), bt.AId(i, j));
    }
  }

  /** The same for a cell of the last paired column naming an id. */
  lemma LaterColumnsMissB(bt: Batch, n: nat, i: nat, k: nat, r: nat)
    requires bt.WellFormed() && i < n <= bt.ncols && k < bt.nwb && r < bt.nrows && LastPairedSlot(bt, n, i, k)
    ensures forall i' :: i + 1 <= i' < n ==> Untouched(bt.BOffsets(i)[k] + r, bt.BOffsets(i'), bt.nwb, bt.nrows)
  {
    ScaleMono(bt.nwb, n, bt.ncols);
    var q := bt.BOffsets(i)[k] + r;
    forall i', k' | i < i' < n && 0 <= k' < bt.nwb ensures !InColumn(q, bt.BOffsets(i')[k'], bt.nrows) {
      ScaleMono(bt.nwb, i, i');
      SlotBelow(bt.nwb, n, k', i');
      ColumnsDisjoint(bt.nrows, bt.BId(i', k'), bt.BId(i, k));
    }
  }

  // The per-column loops, on the buffers themselves.

  /** `cv = 0; for c < n: cv += A[c + ia] * B[c + ib]`. */
  method ColumnDot(A: array<real>, ia: int, B: array<real>, ib: int, n: nat) returns (cv: real)
    requires Fits(ia, n, A.Length) && Fits(ib, n, B.Length)
    ensures cv == Dot(A[..], ia, B[..], ib, n)
  {
    cv := 0.0;
    for c := 0 to n
      invariant cv == Dot(A[..], ia, B[..], ib, c)
    {
      cv := cv + A[c + ia] * B[c + ib];
    }
  }

  /** `for c < n: X[c + ix] += cv * Y[c + iy]`. */
  method AddScaledInPlace(X: array<real>, ix: int, cv: real, Y: array<real>, iy: int, n: nat)
    requires X != Y && Fits(ix, n, X.Length) && Fits(iy, n, Y.Length)
    modifies X
    ensures X[..] == AddScaled(old(X[..]), ix, cv, Y[..], iy, n)
  {
    for c := 0 to n
      invariant forall p :: 0 <= p < X.Length ==>
                  X[p] == if InColumn(p, ix, c) then old(X[p]) + cv * Y[iy + (p - ix)] else old(X[p])
    {
      X[c + ix] := X[c + ix] + cv * Y[c + iy];
    }
    assert forall p :: 0 <= p < X.Length ==> X[..][p] == AddScaled(old(X[..]), ix, cv, Y[..], iy, n)[p];
  }

  /** `for c < n: X[c + ix] = 0`. */
  method ZeroInPlace(X: array<real>, ix: int, n: nat)
    requires Fits(ix, n, X.Length)
    modifies X
    ensures X[..] == ZeroColumn(old(X[..]), ix, n)
  {
    for c := 0 to n
      invariant forall p :: 0 <= p < X.Length ==> X[p] == if InColumn(p, ix, c) then 0.0 else old(X[p])
    {
      X[c + ix] := 0.0;
    }
  }
}
