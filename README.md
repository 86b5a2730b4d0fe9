# word2vec CPU kernels, modelled in Dafny

BIDMach's native CPU library has four training kernels for word2vec (skip-gram
with negative sampling). All four live in `jni/src/BIDMach_CPUMACH.c` and work
on flat buffers `A` (input vectors) and `B` (output vectors), one column of
`nrows` cells per word:

- `word2vecConv` is the windowed update over one word sequence `W`. For each
  position `i` it first scores every neighbour `i + j`, with `0 < |j| <= skip`
  and the neighbour inside the sequence, as `1 - logistic(dot)`. It then walks
  the offsets. For each one, the neighbour's column of A gains `cv` times B's
  column of word `i`. B's column of word `i` gains `cv` times the neighbour's
  A column as it was before that offset's update, staged through the scratch
  buffer `Btmp`. Here `cv` is `lrate` times the score.
- `word2vec` is the explicit-pair update. For each column it first stores
  `-logistic(dot)` for every (context, paired) combination into a scratch
  table `C`. It then adds `lrate*C*B` into the context columns of A. Last, it
  adds `lrate*C*A` into the paired columns of B, reading the A that the
  previous pass has just written.
- `word2vecFwd` is the scorer. It writes the raw dot product of every
  combination of every column into `C[j + nwa*(k + nwb*i)]`.
- `word2vecBwd` is the decoupled backward pass. Each context column of A is
  zeroed and then accumulated from the paired columns of B, weighted by
  `lrate` times the caller's scores. Then each paired column of B is handled
  the same way from the freshly written A.

The clamped logistic and the dot product, which the kernels compute inline,
are pure functions here: `Squash.Logistic` and `Embedding.Dot`.

Floats are modelled as `real`. The C library's `exp` is a parameter
`exp: ExpFn`, about which only positivity is known.

Each kernel is a method on `array<real>` with the source's nested loops. Its
postcondition equates the final buffers with a specification function on
`seq<real>` snapshots, in the form of a fold over the columns run in order:

| kernel | fold |
|---|---|
| `word2vecConv` | `WindowUpdate.ConvKernel` |
| `word2vec` | `PairUpdate.PairKernel` |
| `word2vecBwd` | `BackwardUpdate.BwdKernel` |

For `word2vecFwd`, each cell of C equals `ForwardScore.RawScore`. Lemmas about
the folds state what the kernels promise:

- additive versus overwriting semantics;
- the order of the phases: scores before updates, and A before B;
- which cells can change;
- the degenerate cases where loops are empty.

Modules:

- `Squash` — the clamped logistic.
- `Embedding` — the buffer layout and the index arithmetic. It also holds the
  folds shared by the pair kernels (`AddScaled`, `AddColumns`, `Accumulate`,
  `Overwrite`) and the per-column loops on the buffers.
- `ForwardScore` — `word2vecFwd`.
- `PairUpdate` — `word2vec`.
- `BackwardUpdate` — `word2vecBwd`.
- `WindowUpdate` — `word2vecConv`.

Behaviour kept as the code has it:

- **The logistic's middle branch.** It is `1 / (1 + exp(x))`, the logistic of
  `-x`. The clamps give 1 above 16 and 0 below -16, so the function jumps at
  both clamps. `Squash.LogisticJumpsAtUpperClamp` and
  `Squash.LogisticJumpsAtLowerClamp` state the jumps. The kernels use the
  function as written.
- **Raw offsets in `word2vecConv`.** It uses the entries of W as raw buffer
  offsets (lines 21, 24). The other kernels scale the ids by `nrows` (lines
  87, 89).
- **`Btmp` per offset.** In `word2vecConv`, `Btmp` is cleared at every offset
  (lines 45-47) and added into B at every offset (lines 56-58). The later
  offsets of a position therefore read a B that the earlier offsets have
  already updated. A reading in which `Btmp` accumulates over all offsets and
  is added into B once per position does not match these lines; the model
  follows the code.
- **The array handle at line 11.** It is named `jWA`, which is not a parameter
  of `word2vecConv`. It is modelled as the kernel's `jW` argument (lines 7, 66).
- **Repeated ids in `word2vecBwd`.** When an id repeats within one column's
  slots, the later slot's zeroing discards the earlier slot's sum.
  `BackwardUpdate.BwdColumnResult` therefore speaks of the last slot carrying
  each id, and `BackwardUpdate.BwdKernelOverwritesA` and
  `BackwardUpdate.BwdKernelOverwritesB` carry the same statement over to the
  whole call.
- **An empty side in `word2vecBwd` is not a no-op.** With `nwa == 0` the call
  still zeroes every column of B that WB names (lines 201-205), and the empty
  `j` loop (lines 206-212) adds nothing back; A is left as it was
  (`BackwardUpdate.BwdKernelNoContext`). With `nwb == 0` it likewise zeroes
  every column of A that WA names (`BackwardUpdate.BwdKernelNoPairs`). In
  `word2vec`, by contrast, an empty side changes nothing
  (`PairUpdate.PairKernelNoPairs`).

## Model

Every source cell is a line range of `jni/src/BIDMach_CPUMACH.c`.

| member | source | states |
|---|---|---|
| Squash.Logistic | jni/src/BIDMach_CPUMACH.c:30-37 | the squashed score is in [0, 1]; exactly 1 when the dot exceeds 16 and exactly 0 below -16; otherwise strictly between 0 and 1 with `r * (1 + exp(x)) == 1` (the same code is at 95-102) |
| Squash.LogisticJumpsAtUpperClamp | jni/src/BIDMach_CPUMACH.c:30-36 | for any `exp` with `exp(16) > 1`, the value at 16 is below one half while just above 16 it is 1: the middle branch is the logistic of `-x` |
| Squash.LogisticJumpsAtLowerClamp | jni/src/BIDMach_CPUMACH.c:32-36 | for any `exp` with `exp(-16) < 1`, the value at -16 is above one half while just below -16 it is 0 |
| Embedding.Dot | jni/src/BIDMach_CPUMACH.c:25-28 | defines the dot product of two columns of `n` cells, summed from cell 0 upwards, as the `c` loops at 25-28, 90-93 and 156-159 compute it; ColumnDot proves that the loop computes it |
| Embedding.ColumnDot | jni/src/BIDMach_CPUMACH.c:25-28 | the `c` loop's running sum ends as the dot product of the two columns, summed from cell 0 upwards |
| Embedding.AddScaled | jni/src/BIDMach_CPUMACH.c:113-115 | defines the target after `x[ix + c] += cv * y[iy + c]` for every `c < nrows`: each cell of the target column gains `cv` times the source cell in the same row, and every other cell is kept; this is the innermost `c` loop at 52-53, 113-115, 124-126, 196-198 and 209-211 |
| Embedding.ZeroColumn | jni/src/BIDMach_CPUMACH.c:190-192 | defines the target after `x[ix + c] = 0` for every `c < nrows`: the column's cells are 0 and every other cell is kept (also 203-205) |
| Embedding.AddColumns | jni/src/BIDMach_CPUMACH.c:193-199 | defines the target after one source loop: for each source slot `k` in order, an AddScaled of the source column `yoffs[k]` with weight `coefs[k]`, each on what the slots before it left |
| Embedding.Combo | jni/src/BIDMach_CPUMACH.c:193-199 | defines cell `c` of the weighted sum of the source columns: `coefs[k] * y[yoffs[k] + c]` summed over the source slots in order |
| Embedding.Accumulate | jni/src/BIDMach_CPUMACH.c:108-117 | defines an additive pass over the first `s` target slots in order: slot `t` runs its source loop into column `xoffs[t]` with weight row `rows[t]`, starting from what the slots before it left; with the roles of A and B swapped it is also the pass at 119-128; AccumulateAt gives its cell-level meaning |
| Embedding.Overwrite | jni/src/BIDMach_CPUMACH.c:188-200 | defines an overwriting pass over the first `s` target slots in order: slot `t` zeroes column `xoffs[t]`, then runs its source loop into it, starting from what the slots before it left; with the roles swapped it is also the pass at 201-213; OverwriteLast gives its meaning |
| Embedding.Weighted | jni/src/BIDMach_CPUMACH.c:112 | the weights as the passes read them: same length as the scores, entry `t` being `lrate` times score `t` |
| Embedding.PairedScores | jni/src/BIDMach_CPUMACH.c:123 | the scores of paired slot `k`: entry `j` is the score of context slot `j` with slot `k`, the one stored at `C[j + nwa*k]` |
| Embedding.ARows | jni/src/BIDMach_CPUMACH.c:110-112 | the weights of the A pass: `nwa` rows of `nwb` entries, row `j` being `lrate` times the scores of context slot `j` against every paired slot |
| Embedding.BRows | jni/src/BIDMach_CPUMACH.c:121-123 | the weights of the B pass, as a transposed table: `nwb` rows of `nwa` entries, row `k` being `lrate` times the score of every context slot with paired slot `k` |
| Embedding.Batch.AId | jni/src/BIDMach_CPUMACH.c:87 | the id `WA[j+i*nwa]` of context slot `j` of column `i` |
| Embedding.Batch.BId | jni/src/BIDMach_CPUMACH.c:89 | the id `WB[k+i*nwb]` of paired slot `k` of column `i` |
| Embedding.Batch.AOffsets | jni/src/BIDMach_CPUMACH.c:87 | the `nwa` offsets of column `i`'s context columns in slot order, offset `j` being `nrows*WA[j+i*nwa]` |
| Embedding.Batch.BOffsets | jni/src/BIDMach_CPUMACH.c:89 | the `nwb` offsets of column `i`'s paired columns in slot order, offset `k` being `nrows*WB[k+i*nwb]` |
| Embedding.AddScaledInPlace | jni/src/BIDMach_CPUMACH.c:113-115 | the loop `X[c + ix] += cv * Y[c + iy]` adds `cv` times the source column to the target column and changes no other cell |
| Embedding.ZeroInPlace | jni/src/BIDMach_CPUMACH.c:190-192 | the loop zeroes exactly the `nrows` cells of the target column |
| Embedding.AddColumnsSnoc | jni/src/BIDMach_CPUMACH.c:193-199 | one more iteration of a source loop adds one more scaled source column to the target |
| Embedding.AddColumnsAt | jni/src/BIDMach_CPUMACH.c:193-199 | after a whole source loop, each target cell holds its old value plus the weighted sum of the source columns' cells at the same row, and every other cell is unchanged |
| Embedding.AccumulateAt | jni/src/BIDMach_CPUMACH.c:108-117 | an additive pass leaves every cell at its old value plus what each slot whose column covers it adds; repeated ids add up |
| Embedding.AccumulateFrame | jni/src/BIDMach_CPUMACH.c:108-117 | an additive pass changes no cell outside its target columns |
| Embedding.AccumulateWithoutSources | jni/src/BIDMach_CPUMACH.c:110-116 | with no source slots, an additive pass changes nothing |
| Embedding.OverwriteFrame | jni/src/BIDMach_CPUMACH.c:188-200 | an overwriting pass changes no cell outside its target columns |
| Embedding.OverwriteLast | jni/src/BIDMach_CPUMACH.c:188-200 | once a slot has run and no later slot overlaps its column, that column holds exactly the slot's weighted sum, whatever it held before |
| Embedding.OverwriteWithoutSources | jni/src/BIDMach_CPUMACH.c:188-192 | with no source slots, an overwriting pass zeroes its target columns and keeps every other cell |
| Embedding.ScaleIsProduct | jni/src/BIDMach_CPUMACH.c:160 | the repeated-addition form of `w * k` used by the index lemmas equals the product the kernels compute |
| Embedding.SlotIsProduct | jni/src/BIDMach_CPUMACH.c:87 | the slot index `j + w*k` equals both `j + k*w` (as in `WA[j+i*nwa]`) and `j + w*k` (as in `C[j + nwa*k]`) |
| Embedding.SlotBelow | jni/src/BIDMach_CPUMACH.c:81-104 | for `j < nwa` and `k < nwb` the scratch index `j + k*nwa` lies inside the `nwa*nwb` table |
| Embedding.SlotInjective | jni/src/BIDMach_CPUMACH.c:104 | distinct (j, k) pairs store into distinct cells of the scratch table |
| Embedding.SlotSplit | jni/src/BIDMach_CPUMACH.c:81-104 | every cell of the `nwa*nwb` table is the slot of some (j, k) pair |
| Embedding.ColumnStartIsProduct | jni/src/BIDMach_CPUMACH.c:87 | the column offset of id `id` is `nrows * id`, negative ids included |
| Embedding.ColumnsDisjoint | jni/src/BIDMach_CPUMACH.c:87-89 | columns `nrows*u` and `nrows*v` of distinct ids share no cell |
| Embedding.Batch.OffsetsFit | jni/src/BIDMach_CPUMACH.c:87-89 | when every id read names a whole column inside its buffer, so does every offset of every column of the batch |
| Embedding.OutsideAStep | jni/src/BIDMach_CPUMACH.c:187-189 | a cell lies outside the context columns of the first `i + 1` columns exactly when it lies outside those of the first `i` columns and outside those of column `i` |
| Embedding.OutsideBStep | jni/src/BIDMach_CPUMACH.c:201-202 | a cell lies outside the paired columns of the first `i + 1` columns exactly when it lies outside those of the first `i` columns and outside column `i`'s paired columns |
| Embedding.LastContextSlotInColumn | jni/src/BIDMach_CPUMACH.c:188-189 | if context slot `j` of column `i` is the last slot of WA, up to column `n - 1`, that names its id, then no later slot of column `i` names that id |
| Embedding.LastPairedSlotInColumn | jni/src/BIDMach_CPUMACH.c:201-202 | the same for a paired slot and WB |
| Embedding.LaterColumnsMissA | jni/src/BIDMach_CPUMACH.c:187-189 | every cell of the column named by the last context slot carrying an id lies outside the context columns of every later column |
| Embedding.LaterColumnsMissB | jni/src/BIDMach_CPUMACH.c:201-202 | every cell of the column named by the last paired slot carrying an id lies outside the paired columns of every later column |
| Embedding.ContextOffset | jni/src/BIDMach_CPUMACH.c:87 | `nrows*WA[j+i*nwa]` is the offset of context slot `j` of column `i` |
| Embedding.PairedOffset | jni/src/BIDMach_CPUMACH.c:89 | `nrows*WB[k+i*nwb]` is the offset of paired slot `k` of column `i` |
| ForwardScore.ScoreIndex | jni/src/BIDMach_CPUMACH.c:160-161 | defines where the score of column `i`, context slot `j`, paired slot `k` goes; ScoreIndexIsProduct shows it is the kernel's `j + nwa*(k + nwb*i)` |
| ForwardScore.RawScore | jni/src/BIDMach_CPUMACH.c:153-161 | defines the raw score of a combination: the Dot of A's column `nrows*WA[j+i*nwa]` with B's column `nrows*WB[k+i*nwb]` |
| ForwardScore.BlockStart | jni/src/BIDMach_CPUMACH.c:160 | the first cell of column `i`'s block of C, `coff` at `k == 0`; BlockStartIsProduct shows it is `nwa*nwb*i` |
| ForwardScore.ScoreIndexIsProduct | jni/src/BIDMach_CPUMACH.c:160-161 | the score cell of (i, j, k) is `j + nwa*(k + nwb*i)`, the index the kernel computes |
| ForwardScore.BlockStartIsProduct | jni/src/BIDMach_CPUMACH.c:160 | the block of column `i` starts at `nwa*nwb*i` |
| ForwardScore.ScoreIndexInBlock | jni/src/BIDMach_CPUMACH.c:160-161 | the cells of column `i` lie between `nwa*nwb*i` and `nwa*nwb*(i+1)` |
| ForwardScore.BlockStartMono | jni/src/BIDMach_CPUMACH.c:160 | blocks of later columns start no earlier |
| ForwardScore.ScoreIndexBelow | jni/src/BIDMach_CPUMACH.c:160-161 | every score cell of the `ncols` columns is below `nwa*nwb*ncols` |
| ForwardScore.ScoreIndexInjective | jni/src/BIDMach_CPUMACH.c:160-161 | distinct (i, j, k) triples write distinct cells of C |
| ForwardScore.ScoreCellCovered | jni/src/BIDMach_CPUMACH.c:160-161 | every cell below `nwa*nwb*ncols` is written by some (i, j, k); with ScoreIndexInjective, each exactly once |
| ForwardScore.Word2vecFwd | jni/src/BIDMach_CPUMACH.c:151-163 | every combination's cell of C holds the dot product of its A column `nrows*WA[j+i*nwa]` and B column `nrows*WB[k+i*nwb]`; C beyond `nwa*nwb*ncols`, and A and B, are unchanged |
| ForwardScore.ScoreColumn | jni/src/BIDMach_CPUMACH.c:152-163 | one column fills its block of C with its raw scores and leaves the rest of C unchanged |
| ForwardScore.ScoreRow | jni/src/BIDMach_CPUMACH.c:154-162 | one context slot fills its `nwb` cells and leaves the other cells unchanged |
| ForwardScore.StoreScore | jni/src/BIDMach_CPUMACH.c:155-161 | one combination's raw score lands in its cell, and every other cell keeps its value |
| PairUpdate.PairScore | jni/src/BIDMach_CPUMACH.c:95-104 | the stored score `-logistic(dot)` lies in [-1, 0] |
| PairUpdate.NegatedLogisticDot | jni/src/BIDMach_CPUMACH.c:90-104 | the dot, clamp and negation compute the combination's PairScore from the current buffers |
| PairUpdate.Scores | jni/src/BIDMach_CPUMACH.c:86-106 | the score table of one column has one row per context slot and one entry per paired slot; entry `[j][k]` is the PairScore of that combination, all computed from the matrices as the column found them |
| PairUpdate.PairStep | jni/src/BIDMach_CPUMACH.c:108-128 | defines one column: the A pass adds `lrate*C*B` into the context columns reading the old B, then the B pass adds `lrate*C*A` into the paired columns reading the A that the A pass left; both buffers keep their length |
| PairUpdate.PairColumn | jni/src/BIDMach_CPUMACH.c:86-128 | defines one outer iteration: the column's offsets `nrows*WA[j+i*nwa]` and `nrows*WB[k+i*nwb]`, its score table computed from the matrices on entry, then PairStep |
| PairUpdate.PairKernel | jni/src/BIDMach_CPUMACH.c:85-129 | defines the fold of one column after another over the first `n` columns in order, each column scored on the matrices its predecessors left; both buffers keep their length |
| PairUpdate.ScorePairs | jni/src/BIDMach_CPUMACH.c:86-106 | `C[j + nwa*k]` holds the score of every combination, all taken from A and B as they stood before any update of the column |
| PairUpdate.ScoreRow | jni/src/BIDMach_CPUMACH.c:87-105 | one context slot extends the filled prefix of the score table by its `nwb` scores |
| PairUpdate.ScoreCell | jni/src/BIDMach_CPUMACH.c:89-104 | one combination's score is stored and the scores already stored stay in place |
| PairUpdate.PassA | jni/src/BIDMach_CPUMACH.c:108-117 | the A pass leaves A as the additive step says: each context column gains `lrate*C*B` summed over the paired slots, reading B as it was |
| PairUpdate.PassARow | jni/src/BIDMach_CPUMACH.c:109-116 | one context slot adds its weighted paired columns of B into its A column |
| PairUpdate.PassACell | jni/src/BIDMach_CPUMACH.c:111-115 | one (j, k) iteration adds `lrate*C[j + nwa*k]` times B's paired column |
| PairUpdate.PassB | jni/src/BIDMach_CPUMACH.c:119-128 | the B pass leaves B as the step says, reading the A the A pass has just written |
| PairUpdate.PassBRow | jni/src/BIDMach_CPUMACH.c:120-127 | one paired slot adds its weighted context columns of the new A into its B column |
| PairUpdate.PassBCell | jni/src/BIDMach_CPUMACH.c:122-126 | one (k, j) iteration adds `lrate*C[j + nwa*k]` times A's context column |
| PairUpdate.PairColumnInPlace | jni/src/BIDMach_CPUMACH.c:86-128 | one outer iteration advances A and B by one column of PairKernel: scores first, then the A pass, then the B pass |
| PairUpdate.Word2vec | jni/src/BIDMach_CPUMACH.c:81-129 | A and B end as PairKernel says, run over the `ncols` columns in order from their values on entry |
| PairUpdate.NewScoreTable | jni/src/BIDMach_CPUMACH.c:81 | the scratch table is a fresh buffer of `nwa*nwb` entries |
| PairUpdate.PairStepAdds | jni/src/BIDMach_CPUMACH.c:108-128 | per column, each A cell gains what the context slots covering it add from the old B; each B cell gains what the paired slots covering it add from the new A |
| PairUpdate.PairStepNoPairs | jni/src/BIDMach_CPUMACH.c:108-128 | a column with no context or no paired slots changes neither matrix |
| PairUpdate.PairKernelNoPairs | jni/src/BIDMach_CPUMACH.c:85-129 | with `nwa == 0` or `nwb == 0`, the kernel leaves A and B unchanged |
| PairUpdate.PairStepFrame | jni/src/BIDMach_CPUMACH.c:108-128 | a column changes only the A cells of its context columns and the B cells of its paired columns |
| PairUpdate.PairKernelFrame | jni/src/BIDMach_CPUMACH.c:85-129 | the kernel changes no A cell outside the columns `nrows*WA[...]` and no B cell outside the columns `nrows*WB[...]` |
| BackwardUpdate.BlockScores | jni/src/BIDMach_CPUMACH.c:195 | column `i`'s score table as the caller's C holds it: `nwa` rows of `nwb` entries, entry `[j][k]` being `C[j + nwa*(k + nwb*i)]`, an index inside C |
| BackwardUpdate.ContextWeights | jni/src/BIDMach_CPUMACH.c:195 | defines the weights of context slot `j`: `lrate*C[j + nwa*(k + nwb*i)]`, one per paired slot `k` |
| BackwardUpdate.PairedWeights | jni/src/BIDMach_CPUMACH.c:208 | defines the weights of paired slot `k`: `lrate*C[j + nwa*(k + nwb*i)]`, one per context slot `j` |
| BackwardUpdate.BwdStep | jni/src/BIDMach_CPUMACH.c:188-213 | defines one column: each context column of A is zeroed and refilled from the old B, slot after slot, then each paired column of B is zeroed and refilled from the new A; both buffers keep their length |
| BackwardUpdate.BwdColumn | jni/src/BIDMach_CPUMACH.c:188-213 | BwdStep on column `i`'s offsets `nrows*WA[...]` and `nrows*WB[...]` with its scores read from C; both buffers keep their length |
| BackwardUpdate.BwdKernel | jni/src/BIDMach_CPUMACH.c:187-214 | defines the fold of one column after another over the first `n` columns in order (through AfterColumn, the state after one more column); both buffers keep their length |
| BackwardUpdate.BwdColumnResult | jni/src/BIDMach_CPUMACH.c:188-213 | after a column, a context column whose id no later slot repeats holds exactly the weighted sum of the old paired B columns, independent of its prior value; each such paired column of B holds the weighted sum of the new A's context columns |
| BackwardUpdate.BwdColumnResultA | jni/src/BIDMach_CPUMACH.c:188-200 | the A half of BwdColumnResult: the last context slot of a column naming an id decides that column of A, as the weighted sum of the old B |
| BackwardUpdate.BwdColumnResultB | jni/src/BIDMach_CPUMACH.c:201-213 | the B half: the last paired slot of a column naming an id decides that column of B, as the weighted sum of the A the column has just written |
| BackwardUpdate.BwdStepNoPairs | jni/src/BIDMach_CPUMACH.c:188-200 | with `nwb == 0`, a column zeroes every context column of A, keeps the rest of A, and leaves B unchanged |
| BackwardUpdate.BwdStepNoContext | jni/src/BIDMach_CPUMACH.c:201-212 | with `nwa == 0`, a column leaves A unchanged, zeroes every paired column of B and keeps the rest of B |
| BackwardUpdate.BwdStepFrame | jni/src/BIDMach_CPUMACH.c:188-213 | a column changes only the A cells of its context columns and the B cells of its paired columns |
| BackwardUpdate.BwdKernelFrame | jni/src/BIDMach_CPUMACH.c:187-214 | the kernel changes no A cell outside the context columns and no B cell outside the paired columns |
| BackwardUpdate.BwdColumnFrameA | jni/src/BIDMach_CPUMACH.c:188-200 | a column changes no A cell outside its context columns, whatever B holds |
| BackwardUpdate.BwdColumnFrameB | jni/src/BIDMach_CPUMACH.c:201-213 | a column changes no B cell outside its paired columns, whatever A holds |
| BackwardUpdate.BwdSuffixFrameA | jni/src/BIDMach_CPUMACH.c:187-214 | columns `lo .. n - 1` leave an A cell as it was when none of their context columns covers it |
| BackwardUpdate.BwdSuffixFrameB | jni/src/BIDMach_CPUMACH.c:187-214 | columns `lo .. n - 1` leave a B cell as it was when none of their paired columns covers it |
| BackwardUpdate.BwdKeepsLastA | jni/src/BIDMach_CPUMACH.c:187-214 | once the last context slot naming an id has run, the remaining columns leave that column of A as it is |
| BackwardUpdate.BwdKeepsLastB | jni/src/BIDMach_CPUMACH.c:187-214 | once the last paired slot naming an id has run, the remaining columns leave that column of B as it is |
| BackwardUpdate.BwdKernelColumnA | jni/src/BIDMach_CPUMACH.c:188-200 | within the fold, the column of A named by the last slot of column `i` carrying its id holds the weighted sum of B as column `i` found it |
| BackwardUpdate.BwdKernelColumnB | jni/src/BIDMach_CPUMACH.c:201-213 | within the fold, the column of B named by the last slot of column `i` carrying its id holds the weighted sum of the A column `i` has just written |
| BackwardUpdate.BwdKernelOverwritesA | jni/src/BIDMach_CPUMACH.c:187-214 | for the whole call: if context slot `j` of column `i` is the last slot of WA naming its id, that column of A ends as exactly its weighted sum of B as column `i` found it; what A held there before plays no part |
| BackwardUpdate.BwdKernelOverwritesB | jni/src/BIDMach_CPUMACH.c:187-214 | for the whole call: if paired slot `k` of column `i` is the last slot of WB naming its id, that column of B ends as exactly its weighted sum of the A that column `i` wrote |
| BackwardUpdate.BwdKernelNoPairs | jni/src/BIDMach_CPUMACH.c:187-214 | with `nwb == 0`, the call leaves B unchanged and sets to zero exactly the A cells of the columns that WA names, keeping every other A cell |
| BackwardUpdate.BwdKernelNoContext | jni/src/BIDMach_CPUMACH.c:187-214 | with `nwa == 0`, the call leaves A unchanged and sets to zero exactly the B cells of the columns that WB names, keeping every other B cell |
| BackwardUpdate.Word2vecBwd | jni/src/BIDMach_CPUMACH.c:187-214 | A and B end as BwdKernel says, over the `ncols` columns in order, reading the scores at `C[j + nwa*(k + nwb*i)]`; C is only read |
| BackwardUpdate.BwdColumnInPlace | jni/src/BIDMach_CPUMACH.c:188-213 | one outer iteration advances A and B by one column: the A pass, then the B pass |
| BackwardUpdate.BwdPassA | jni/src/BIDMach_CPUMACH.c:188-200 | the A pass overwrites each context column with its weighted sum of the old B, slot after slot |
| BackwardUpdate.BwdRowA | jni/src/BIDMach_CPUMACH.c:189-199 | one context slot zeroes its A column, then adds each paired B column weighted by `lrate*C[j + nwa*(k + nwb*i)]` |
| BackwardUpdate.BwdCellA | jni/src/BIDMach_CPUMACH.c:194-198 | one (j, k) iteration adds one weighted B column into the context column |
| BackwardUpdate.BwdPassB | jni/src/BIDMach_CPUMACH.c:201-213 | the B pass overwrites each paired column with its weighted sum of the A just written |
| BackwardUpdate.BwdRowB | jni/src/BIDMach_CPUMACH.c:202-212 | one paired slot zeroes its B column, then adds each context A column weighted by its score |
| BackwardUpdate.BwdCellB | jni/src/BIDMach_CPUMACH.c:207-211 | one (k, j) iteration adds one weighted A column into the paired column |
| BackwardUpdate.ScoreAt | jni/src/BIDMach_CPUMACH.c:195 | reads the score `C[j + nwa*(k + nwb*i)]` of column `i`, context slot `j`, paired slot `k` (also line 208) |
| WindowUpdate.ConvScore | jni/src/BIDMach_CPUMACH.c:30-39 | the stored neighbour score `1 - logistic(dot)` is in [0, 1]; 0 when the dot exceeds 16, 1 when it is below -16 |
| WindowUpdate.ConvScoreOf | jni/src/BIDMach_CPUMACH.c:24-39 | the dot, clamp and `1 - cv` compute the neighbour's ConvScore from the current buffers, at the raw offsets `W[i + j]` and `W[i]` |
| WindowUpdate.ColumnScores | jni/src/BIDMach_CPUMACH.c:22-41 | the scratch table of position `i` has `2*skip + 1` entries; the entry `j + skip` of an offset that names a neighbour is that neighbour's ConvScore, computed from the matrices as position `i` found them |
| WindowUpdate.OffsetStep | jni/src/BIDMach_CPUMACH.c:44-58 | defines one offset: for a neighbour, A's neighbour column gains `cv` times B's column of word `i` and B's column of word `i` gains `cv` times the neighbour's A column as it was before this offset; any other offset changes nothing; both buffers keep their length |
| WindowUpdate.Window.Valid | jni/src/BIDMach_CPUMACH.c:23 | offset `j` of position `i` names a neighbour exactly when `j != 0` and `0 <= i + j < ncols`, the test at lines 23 and 48 |
| WindowUpdate.Zeros | jni/src/BIDMach_CPUMACH.c:45-47 | `Btmp` after it is cleared: `nrows` zeros |
| WindowUpdate.AddInto | jni/src/BIDMach_CPUMACH.c:56-58 | defines B after `B[c + ib] += Btmp[c]` for every `c < nrows`: the column gains `Btmp` cell by cell and every other cell is kept |
| WindowUpdate.Offsets | jni/src/BIDMach_CPUMACH.c:43-59 | defines the first `t` offsets `-skip .. t - 1 - skip` in order, offset `j` taking the weight `cvs[j + skip]`, each an OffsetStep on what the offsets before it left |
| WindowUpdate.ConvColumn | jni/src/BIDMach_CPUMACH.c:21-59 | defines one outer iteration: the neighbour scores from the matrices on entry, scaled by `lrate`, then all `2*skip + 1` offsets in order |
| WindowUpdate.ConvKernel | jni/src/BIDMach_CPUMACH.c:20-60 | defines the fold of one position after another over the first `n` positions in order, each scoring its neighbours before running its offsets; both buffers keep their length |
| WindowUpdate.ScoreOffset | jni/src/BIDMach_CPUMACH.c:23-40 | a valid offset stores its score at `C[j + skip]`; any offset leaves every other entry of C unchanged |
| WindowUpdate.ScoreNeighbours | jni/src/BIDMach_CPUMACH.c:22-41 | every valid offset's entry of C holds its score, all computed from A and B as they stood before any update at position `i` |
| WindowUpdate.AddZeros | jni/src/BIDMach_CPUMACH.c:45-58 | adding the cleared `Btmp` leaves B unchanged, which is what an offset naming no neighbour does |
| WindowUpdate.StagedAdd | jni/src/BIDMach_CPUMACH.c:45-58 | clearing `Btmp`, adding `cv*A[ia + c]` into it and then adding it into B equals adding `cv` times the A column, read before that offset's A update, directly into B |
| WindowUpdate.ScatterCell | jni/src/BIDMach_CPUMACH.c:52-53 | one cell: `Btmp[c]` gains `cv` times the old `A[c + ia]`, then `A[c + ia]` gains `cv*B[c + ib]`; nothing else changes |
| WindowUpdate.ScatterStep | jni/src/BIDMach_CPUMACH.c:51-54 | one more iteration of the scatter loop extends both partial updates, of A and of `Btmp`, by one cell |
| WindowUpdate.ScatterPair | jni/src/BIDMach_CPUMACH.c:51-54 | after the loop, A's neighbour column has gained `cv` times B's column of word `i`, and `Btmp` has gained `cv` times the neighbour's A column as it was before the loop (OffsetInPlace clears `Btmp` first, so it then holds exactly that) |
| WindowUpdate.Times | jni/src/BIDMach_CPUMACH.c:52-53 | the product `cv * v` that each cell of the scatter loop adds |
| WindowUpdate.AddIntoInPlace | jni/src/BIDMach_CPUMACH.c:56-58 | B's column of word `i` gains `Btmp` cell by cell |
| WindowUpdate.OffsetInPlace | jni/src/BIDMach_CPUMACH.c:44-58 | one offset advances A and B by OffsetStep: a valid neighbour gets both additive updates with `cv = lrate*C[j + skip]`; any other offset changes nothing |
| WindowUpdate.RunOffsets | jni/src/BIDMach_CPUMACH.c:43-59 | A and B end as the offsets `-skip .. skip` of position `i` leave them, run in order with `cv = lrate*C[j + skip]` |
| WindowUpdate.ConvColumnInPlace | jni/src/BIDMach_CPUMACH.c:21-59 | one position advances A and B by one column of ConvKernel: all scores first, then the offsets |
| WindowUpdate.RunColumns | jni/src/BIDMach_CPUMACH.c:20-60 | A and B end as ConvKernel over all `ncols` positions, run in order from their values on entry |
| WindowUpdate.Word2vecConv | jni/src/BIDMach_CPUMACH.c:16-63 | A and B end as ConvKernel says, from their values on entry |
| WindowUpdate.OffsetsWithoutNeighbours | jni/src/BIDMach_CPUMACH.c:43-59 | offsets that name no neighbour leave A and B unchanged |
| WindowUpdate.ColumnWithoutNeighbours | jni/src/BIDMach_CPUMACH.c:21-59 | a position none of whose offsets names a neighbour changes nothing |
| WindowUpdate.ConvSkipZero | jni/src/BIDMach_CPUMACH.c:22-23 | with `skip == 0`, the kernel leaves A and B unchanged |
| WindowUpdate.ConvSingleWord | jni/src/BIDMach_CPUMACH.c:23 | with a single word, there is no neighbour and the kernel leaves A and B unchanged |
| WindowUpdate.OffsetsFrame | jni/src/BIDMach_CPUMACH.c:43-59 | the offsets change no cell outside the columns that W names |
| WindowUpdate.ColumnFrame | jni/src/BIDMach_CPUMACH.c:21-59 | one position changes no cell outside the columns that W names |
| WindowUpdate.ConvFrame | jni/src/BIDMach_CPUMACH.c:20-60 | the kernel changes no cell of A or B outside the columns that W names |

## Left out

- Pinning and release of the Java arrays (`GetPrimitiveArrayCritical` and `ReleasePrimitiveArrayCritical`) are foreign-runtime calls. The buffers are arrays given to the methods, and A and B are required to be distinct arrays; `word2vecFwd` and `word2vecBwd` also require C to be distinct from both.
- The scratch buffers' `malloc` and `free` are modelled as fresh local arrays, which are not freed.
- The OpenMP `parallel for` over the outer loop is not modelled; the loop runs sequentially. Dropping it also drops the races it causes: updates from different columns interleave, and the scratch `C`/`Btmp` and the loop variables are shared between threads.
- IEEE single-precision rounding is not modelled; floats are `real`. The real `exp` is replaced by a parameter known only to be positive, so no property depends on its exact values.
- 32-bit overflow of the index arithmetic (`nrows*WA[...]`, `j + nwa*(k + nwb*i)`) is not modelled: integers are unbounded, and each kernel requires every column its id arrays name to lie inside its buffer.
- Sizes (`nrows`, `ncols`, `nwa`, `nwb`, `skip`) are natural numbers. A negative size in the C code would only make its loops empty.
- `mkl.h` is included but not used, and is not part of this model.
- WindowUpdate.ScoreNeighbours: does not state the contents of C at offsets that name no neighbour; those entries are never read.
- WindowUpdate.Word2vecConv: does not state the final contents of the scratch buffers C and `Btmp`, which the kernel frees.
- PairUpdate.Word2vec: does not state the final contents of the scratch table C, which the kernel frees.
