# Cubic-interpolation audio resampler and element-index helpers

This project is a Dafny model of two parts of the MetaModule core interface, with proofs about them.

The first part is the streaming sample-rate converter. Every channel keeps a conversion ratio
(input rate / output rate), a pending-flush flag, a phase accumulator and a four-sample window
`xm1, x0, x1, x2`. Each output sample is the Catmull-Rom cubic through the window, evaluated at
the phase. The phase then advances by the ratio, and whole units of phase are paid for by
sliding new input samples into the window. There are two front ends:

- **The pull form** (`ResamplerMono`, `Resampler` in `dsp/resampler_one.hh`) returns one sample
  per call and fetches input through a `get_input` callback. Here the callback is the sequence
  `src` of samples it would return, read from a cursor (`ResamplerOne`).
- **The block form** (`AudioResampler` in `dsp/resampler.hh`) reads a strided input span and
  writes a strided output span. It then reports how far into each span it got (`AudioResampling`).

Both front ends share the channel record and the cubic (`ChannelState`). The unit tests'
sawtooth scenarios are proved as exact equalities over the reals (`ResamplerVectors`),
including the values the tests check only up to a tolerance (93/128 and 196/27).
Whole-factor conversion is proved for every factor: a downsampler by R returns every R-th input
(`DecimateFromFlush`), and an upsampler by R returns every input exactly at every R-th output
(`Upsampling`, `UpsamplingRuns`).

The second part is the element bookkeeping:

- `get_index`/`set_index` read and build an `Indices` record according to an element's category (`ElementIndex`);
- `populate_sorted_elements_indices` sorts (element, indices) pairs lexicographically and splits them into two parallel sequences (`ElementSort`).

On these points the code behaves in ways that are easy to miss, and the model keeps them as written:

- **The phase >= 3 branch of the pull form is not three single steps.** It puts the old `x1`
  into `xm1`, where three single steps would leave the old `x2`. `Shift3IsThreeStepsIff` proves
  the two agree exactly when `x1 == x2`. The model keeps the branch as written. The branch can
  fire for any ratio above 2: at ratio 5/2 the third call after a flush starts at phase exactly 3
  (`ThreeBranchAtFiveHalves`). None of the unit tests uses such a ratio.
- **The block form's rate setter never requests a flush.** It only stores the new ratio. The
  pull forms flush only when the ratio changes.
- **The block form only primes with at least three input elements.** Priming reads stride-spaced
  elements. When the stride is large, fewer than three of them may exist, and the remaining
  window samples then keep their old values (`BlockPriming`).
- **At unity ratio the block form does a strided copy and does not truncate the spans.**
- **The block form's phase >= 2 guard counts two elements, not two strides.** With a stride of
  2 or more, the second read can fall past the end. The branch then reads one sample but still
  takes 2 off the phase (`TakeTwoReads`, `TakeTwoAtStrideEnd`).

Samples, ratio and phase are exact reals. Rates and strides are unbounded naturals.

## Model

| member | source | states |
|---|---|---|
| ChannelState.Clamp | dsp/resampler.hh:16 | the channel count lands in [lo, hi]; it is unchanged inside the range and goes to the nearer bound outside it |
| ChannelState.RateRatio | dsp/resampler_one.hh:70 | the stored ratio is non-negative, times the output rate gives the input rate, and is 1 exactly when the two rates are equal |
| ChannelState.Cubic | dsp/resampler_one.hh:59-64 | the interpolant passes through x0 at phase 0 and x1 at phase 1 |
| ChannelState.CubicIsCatmullRom | dsp/resampler_one.hh:60-64 | the coefficient formula is the cubic Hermite segment from x0 to x1 with central-difference tangents (x1 - xm1)/2 and (x2 - x0)/2 |
| ChannelState.CubicReproducesLines | dsp/resampler_one.hh:60-64 | four collinear samples are interpolated exactly: the result at phase t is x0 + d * t |
| ChannelState.Output | dsp/resampler_one.hh:59-64 | a channel's output is x0 at phase 0 and x1 at phase 1; CubicIsCatmullRom says what it is in between |
| ChannelState.Prime | dsp/resampler_one.hh:18-25 | priming keeps the ratio, clears the flush and makes the first sample read the output at the new phase |
| ChannelState.Shift1 | dsp/resampler_one.hh:47-56 | the single step keeps ratio and flag and takes 1 off the phase; BranchKeepsWindow states the window it leaves |
| ChannelState.Shift2 | dsp/resampler_one.hh:38-44 | the phase >= 2 step keeps ratio and flag and takes 2 off the phase; Shift2IsTwoSteps relates it to two single steps |
| ChannelState.Shift3 | dsp/resampler_one.hh:29-35 | the phase >= 3 step keeps ratio and flag and takes 3 off the phase; Shift3IsThreeStepsIff says when it equals three single steps |
| ChannelState.Shift2IsTwoSteps | dsp/resampler_one.hh:38-56 | the phase >= 2 branch leaves the same channel as two single-step shifts reading the same samples |
| ChannelState.Shift3IsThreeStepsIff | dsp/resampler_one.hh:29-35 | the phase >= 3 branch equals three single-step shifts if and only if the old x1 equals the old x2 |
| ChannelState.Retune | dsp/resampler_one.hh:69-76 | the new ratio is the rate ratio; flush is set iff it was set or the ratio changed; no other field changes |
| ChannelState.RetuneIdempotent | dsp/resampler_one.hh:69-76 | applying the same rates twice is the same as applying them once |
| ChannelState.RetuneWf | dsp/resampler_one.hh:69-76 | retuning keeps the ratio and the phase non-negative |
| ResamplerOne.BranchAccounting | dsp/resampler_one.hh:29-56 | a shift branch fires only when the phase is at least n; it then reads n samples, takes n off the phase, leaves the newest read in x2 and keeps cursor + floor(phase) |
| ResamplerOne.ReadsNeeded | dsp/resampler_one.hh:13-57 | a call reads once at unity, three times when priming, and otherwise the whole part of the phase, which lies within 1 below it |
| ResamplerOne.Branch | dsp/resampler_one.hh:29-56 | a branch keeps ratio and flag and reads either nothing or exactly its n samples; BranchAccounting gives the rest |
| ResamplerOne.ShiftPass | dsp/resampler_one.hh:28-56 | one pass of the loop body reads at least one sample, takes off the phase exactly what it reads, and keeps cursor + floor(phase) and the ratio and flag |
| ResamplerOne.Settle | dsp/resampler_one.hh:27-57 | the shift loop reads exactly floor(phase) samples and leaves the fractional part of the phase in [0, 1); below 1 it changes nothing |
| ResamplerOne.PullStep | dsp/resampler_one.hh:13-67 | one call reads exactly ReadsNeeded samples and keeps the ratio; at unity it returns the next input and changes nothing; otherwise it clears the flush, returns the cubic of the settled window at the settled phase, and the new phase is that phase (0 after priming, else the fractional part of the old one) plus the ratio |
| ResamplerOne.ShiftBranches | dsp/resampler_one.hh:28-56 | the imperative loop body computes ShiftPass |
| ResamplerOne.ShiftLoop | dsp/resampler_one.hh:27-57 | the imperative while loop computes Settle |
| ResamplerOne.ProcessChannel | dsp/resampler_one.hh:13-67 | the imperative process body computes PullStep: the same sample, channel and cursor |
| ResamplerOne.Run | dsp/resampler_one.hh:13-67 | n successive calls give at most n samples |
| ResamplerOne.RunAppend | dsp/resampler_one.hh:13-67 | a + b calls are a calls followed by b calls from the channel and cursor the first a left |
| ResamplerOne.UnityPassesThrough | dsp/resampler_one.hh:14-16 | at unity ratio a call returns the next input and leaves the channel untouched, a pending flush included |
| ResamplerOne.UnityRunIsIdentity | dsp/resampler_one.hh:14-16 | at unity ratio n calls return exactly the next n input samples |
| ResamplerOne.PrimingReadsThree | dsp/resampler_one.hh:18-25 | a flushing call reads three samples into x0, x1, x2, zeroes xm1, returns the first of them and leaves the phase at the ratio |
| ResamplerOne.BranchKeepsWindow | dsp/resampler_one.hh:29-56 | after any branch x0, x1, x2 are the last three samples read; the phase >= 2 and >= 1 branches also keep xm1 as the one before |
| ResamplerOne.ShiftPassKeepsWindow | dsp/resampler_one.hh:28-56 | a pass keeps x0, x1, x2 as the last three samples read, and the four-sample history when the phase is below 3 |
| ResamplerOne.SettleKeepsWindow | dsp/resampler_one.hh:27-57 | after the shift loop x0, x1, x2 are the last three samples read |
| ResamplerOne.SettleKeepsHistory | dsp/resampler_one.hh:27-57 | with the phase below 3 the shift loop keeps xm1, x0, x1, x2 as the last four samples read |
| ResamplerOne.PullStepKeepsWindow | dsp/resampler_one.hh:13-66 | after every non-unity call, x0, x1, x2 are the last three samples read, whether the call primed or not |
| ResamplerOne.PullStepInterpolates | dsp/resampler_one.hh:27-66 | in steady state with phase below 3 the call returns the cubic of the four samples before the new cursor at the fractional phase; the new phase is that fraction plus the ratio |
| ResamplerOne.DecimateStep | dsp/resampler_one.hh:27-66 | at a whole ratio n >= 2 and phase n a call reads n samples and returns exactly the input now in x0 |
| ResamplerOne.DecimateRun | dsp/resampler_one.hh:27-66 | in the steady state of a whole-factor downsampler m calls return every n-th input sample |
| ResamplerOne.DecimateFromFlush | dsp/resampler_one.hh:18-66 | from a flush, call j of a whole-factor-n downsampler returns input sample k + n * j exactly |
| ResamplerOne.ThreeBranchAtFiveHalves | dsp/resampler_one.hh:18-35 | at ratio 5/2 the third call after a flush starts at phase exactly 3, so the phase >= 3 branch is reached below ratio 3 |
| Upsampling.UpsampleStretch | dsp/resampler_one.hh:27-66 | at ratio 1/R from phase i/R the next R - i + 1 calls read one sample in all, the last returns the old x1 exactly, and the phase is back at 1/R |
| Upsampling.UpsampleGroup | dsp/resampler_one.hh:27-66 | in the steady state of a 1/R upsampler, a group of R calls reads one sample and its last output is the input sample src[q - 2] |
| UpsamplingRuns.UpsampleRunLength | dsp/resampler_one.hh:27-66 | in the steady state m groups of R calls produce m * R samples |
| UpsamplingRuns.UpsampleRun | dsp/resampler_one.hh:27-66 | in the steady state the last output of each group of R calls is the next input sample, in order |
| UpsamplingRuns.UpsampleFromFlush | dsp/resampler_one.hh:18-66 | from a flush at ratio 1/R, every R-th output starting with the first is the next input sample exactly |
| UpsamplingRuns.UpsampleFromFlushAt | dsp/resampler_one.hh:18-66 | from a flush at ratio 1/R, output R * j is input sample k + j exactly |
| ResamplerOne.ResamplerMono.constructor | dsp/resampler_one.hh:86-98 | a new resampler is at unity ratio with a flush pending and a zero window |
| ResamplerOne.ResamplerMono.Process | dsp/resampler_one.hh:13-67 | the sample, the new channel and the cursor are those of PullStep on the old channel |
| ResamplerOne.ResamplerMono.SetSampleRateInOut | dsp/resampler_one.hh:69-76 | the channel becomes Retune of the old channel |
| ResamplerOne.ResamplerMono.Ratio | dsp/resampler_one.hh:78-80 | the ratio of a valid resampler is never negative |
| ResamplerOne.ResamplerMono.Flush | dsp/resampler_one.hh:82-84 | only the flush flag is set |
| ResamplerOne.Resampler.constructor | dsp/resampler_one.hh:103-110 | the channel count is clamped into [1, 16], both strides equal it, and every channel is initial |
| ResamplerOne.Resampler.Process | dsp/resampler_one.hh:116-175 | an out-of-range index returns 0 and reads and changes nothing; otherwise only that channel advances, as PullStep says |
| ResamplerOne.Resampler.SetSampleRateInOut | dsp/resampler_one.hh:177-186 | every channel becomes Retune of itself |
| ResamplerOne.Resampler.SetInputStride | dsp/resampler_one.hh:188-190 | the input stride is stored, the output stride is unchanged and the resampler stays valid |
| ResamplerOne.Resampler.SetOutputStride | dsp/resampler_one.hh:192-194 | the output stride is stored, the input stride is unchanged and the resampler stays valid |
| ResamplerOne.Resampler.Ratio | dsp/resampler_one.hh:196-198 | the ratio of a channel of a valid resampler is never negative |
| ResamplerOne.Resampler.Flush | dsp/resampler_one.hh:200-204 | every channel gets its flush flag set and nothing else changes |
| ResamplerVectors.Saw | tests/resampler_tests.cc:5-14 | the test input of length n repeats 0, 1, ..., 7 |
| ResamplerVectors.UnityVector | tests/resampler_tests.cc:16-28 | at ratio 1 nine calls give 0, 1, ..., 7, 0 |
| ResamplerVectors.UpsampleByTwo | tests/resampler_tests.cc:30-55 | 24000 to 48000 Hz gives the 21 listed outputs exactly, 0.4375 included |
| ResamplerVectors.UpsampleByFourThirds | tests/resampler_tests.cc:57-77 | 36000 to 48000 Hz gives the 16 listed outputs exactly; the one compared with a tolerance is 93/128 |
| ResamplerVectors.DownsampleByTwo | tests/resampler_tests.cc:79-97 | 48000 to 24000 Hz gives 0, 2, 4, 6 three times |
| ResamplerVectors.DownsampleByFourThirds | tests/resampler_tests.cc:99-116 | 48000 to 36000 Hz gives 0, 4/3, 8/3, 4, 16/3, 196/27 twice |
| AudioResampling.TakeTwo | dsp/resampler.hh:64-74 | the phase >= 2 branch moves no write position, keeps ratio and flag, and changes nothing unless it reads |
| AudioResampling.GetNextIn | dsp/resampler.hh:44-49 | get_next_in reads inp[inpos] and steps by the stride only while inpos is inside the input; past the end it keeps the old value and position |
| AudioResampling.BlockPrime | dsp/resampler.hh:51-58 | priming keeps the ratio, leaves the flush set only when it was set and the input has fewer than three elements, and reads at most three strides |
| AudioResampling.BlockProcess | dsp/resampler.hh:42-104 | a non-unity call keeps the ratio and the output length and stops with the output or the input used up |
| AudioResampling.TakeOne | dsp/resampler.hh:76-86 | the phase >= 1 branch moves no write position, keeps ratio and flag, and always reads once when it fires |
| AudioResampling.Emit | dsp/resampler.hh:93-100 | the inner loop changes only the phase of the channel; it writes at least once when the phase is below 1 and room remains, and stops with the output full or the phase at 1 or more; EmitValues and EmitEnd give what it writes and where it ends |
| AudioResampling.EmitValues | dsp/resampler.hh:93-100 | write j of the inner loop lands at outpos + j * outStride, inside the output, and holds the cubic of the window at the phase advanced j times by the ratio (fracPos + j * ratio) |
| AudioResampling.EmitEnd | dsp/resampler.hh:93-100 | after its n writes the inner loop's write position is outpos + n * outStride and its phase is advanced n times by the ratio (fracPos + n * ratio) |
| AudioResampling.AdvancedIsProduct | dsp/resampler.hh:99 | advancing a phase n times by the ratio adds n * ratio |
| AudioResampling.Outer | dsp/resampler.hh:62-101 | the outer loop only moves the positions forward, keeps ratio and flag, and stops once either span is used up |
| AudioResampling.OuterProgress | dsp/resampler.hh:62-101 | every pass of the outer loop strictly shrinks what is left of the two spans: the loop terminates |
| AudioResampling.TakeTwoReads | dsp/resampler.hh:65-74 | the phase >= 2 branch reads two samples when the second exists; past the end only one, and x2 then repeats x0 |
| AudioResampling.TakeTwoAtStrideEnd | dsp/resampler.hh:65-74 | at stride 2 with four inputs, read position 2 and phase 2, the branch reads one sample and leaves x2 stale |
| AudioResampling.TakeOneReads | dsp/resampler.hh:77-86 | the phase >= 1 branch is the pull form's single-step shift on the next strided input |
| AudioResampling.BlockBounds | dsp/resampler.hh:62-104 | with span sizes that are multiples of their strides, the truncated lengths are multiples of the strides within the spans, and at least one span is used up |
| AudioResampling.BlockOverrunBound | dsp/resampler.hh:44-104 | whatever the span sizes, the final read and write positions lie less than one stride past the ends of their spans |
| AudioResampling.BlockReadsPastUnalignedInput | dsp/resampler.hh:44-58 | four inputs at stride 3 with a flush pending end priming at read position 6, past the end of the input |
| AudioResampling.BlockWritesOnlyBelowOutpos | dsp/resampler.hh:94-100 | only output elements at multiples of the stride below the reported length are written; every other element keeps its value |
| AudioResampling.BlockFlushAndRatio | dsp/resampler.hh:51-58 | after a call the flush flag is set exactly when it was set and the input had fewer than three elements; the ratio is unchanged |
| AudioResampling.BlockKeepsWf | dsp/resampler.hh:51-100 | a call keeps the ratio and the phase non-negative |
| AudioResampling.BlockPriming | dsp/resampler.hh:44-58 | priming reads inp[0], inp[is], inp[2 * is] as far as they exist and keeps the rest of the window; it reads nothing without a flush or with fewer than three inputs |
| AudioResampling.BlockEmptyOutput | dsp/resampler.hh:51-62 | with an empty output nothing is written, but the priming reads are still consumed |
| AudioResampling.BlockExhaustedInput | dsp/resampler.hh:51-62 | when priming uses up the input, the loop does not run |
| AudioResampling.BlockDownsampleByTwo | dsp/resampler.hh:26-106 | halving 0, ..., 7 into three outputs gives 0, 2, 4 after reading 7 inputs |
| AudioResampling.StridedCopyPairs | dsp/resampler.hh:32-40 | the unity copy sets out[k * os] = in[k * is] while both are in range and leaves the other output elements as they were |
| AudioResampling.StridedCopy | dsp/resampler.hh:32-40 | the unity copy keeps the output's length; StridedCopyPairs gives its contents |
| AudioResampling.NextIn | dsp/resampler.hh:44-49 | get_next_in reads and advances only while the read position is inside the input |
| AudioResampling.CopyStrided | dsp/resampler.hh:32-40 | the copy loop produces StridedCopy of the old output |
| AudioResampling.ShiftTwo | dsp/resampler.hh:65-74 | the imperative phase >= 2 branch computes TakeTwo |
| AudioResampling.ShiftOne | dsp/resampler.hh:77-86 | the imperative phase >= 1 branch computes TakeOne |
| AudioResampling.OutputByCoefficients | dsp/resampler.hh:89-96 | evaluating with coefficients computed once per window gives the channel's cubic |
| AudioResampling.EmitLoop | dsp/resampler.hh:89-100 | the coefficient computation and the inner while loop compute Emit, writing into the output array |
| AudioResampling.OuterLoop | dsp/resampler.hh:62-101 | the outer while loop computes Outer |
| AudioResampling.RunBlock | dsp/resampler.hh:42-104 | priming plus the loops compute BlockProcess: channel, both positions and the output contents |
| AudioResampling.AudioResampler.constructor | dsp/resampler.hh:15-22 | the channel count is clamped into [1, 16], both strides equal it, and every channel is initial |
| AudioResampling.AudioResampler.Process | dsp/resampler.hh:26-107 | an invalid index returns -1 and changes nothing; at unity ratio it copies and keeps both lengths and the channel; otherwise the lengths, output and channel are those of BlockProcess, with other channels untouched; the lengths are less than one stride past the span ends, and within the spans, with one used up, when the span sizes are multiples of the strides |
| AudioResampling.AudioResampler.SetSampleRateInOut | dsp/resampler.hh:109-113 | every channel gets the new ratio; flush, phase and window are untouched |
| AudioResampling.AudioResampler.SetInputStride | dsp/resampler.hh:115-117 | the input stride is stored and the output stride is unchanged |
| AudioResampling.AudioResampler.SetOutputStride | dsp/resampler.hh:119-121 | the output stride is stored and the input stride is unchanged |
| AudioResampling.AudioResampler.Ratio | dsp/resampler.hh:123-125 | the ratio of an in-range channel is never negative |
| ElementIndex.GetSetRoundTrip | CoreModules/elements/elements_index.hh:13-63 | reading back the index just set gives it back, for every category but Base |
| ElementIndex.GetIndex | CoreModules/elements/elements_index.hh:9-27 | reading a record whose other fields are NoElementIndices and setting the result back rebuilds the record |
| ElementIndex.SetIndex | CoreModules/elements/elements_index.hh:29-63 | every field the category does not own is that of NoElementIndices, and a Base element gets NoElementIndices |
| ElementIndex.SetGetRoundTrip | CoreModules/elements/elements_index.hh:13-63 | setting the index read from a record rebuilds the record iff its other fields are those of NoElementIndices |
| ElementIndex.SetIndexOnlyOwnField | CoreModules/elements/elements_index.hh:32-54 | set_index leaves every field that the category does not own at its NoElementIndices value |
| ElementIndex.SetIndexBase | CoreModules/elements/elements_index.hh:56-58 | a Base element gets NoElementIndices whatever the index |
| ElementIndex.GetIndexBase | CoreModules/elements/elements_index.hh:9-11 | a Base element reads 0 whatever the record |
| ElementIndex.GetIndexReadsOwnField | CoreModules/elements/elements_index.hh:13-27 | get_index depends only on the category's own field: records that agree there read alike, and for non-Base categories equal reads mean agreement there |
| ElementSort.LessIsKeyOrder | CoreModules/elements/element_sort.hh:14-35 | the comparator is < on the base-256 number of (param, input, output, light), and equal numbers mean equal records |
| ElementSort.Less | CoreModules/elements/element_sort.hh:14-35 | the comparator never relates a record to itself; LessIsStrictTotalOrder gives the other order laws |
| ElementSort.LessIsStrictTotalOrder | CoreModules/elements/element_sort.hh:14-35 | the comparator is irreflexive, transitive and asymmetric, and two records are incomparable only when equal |
| ElementSort.SortedHasNoInversion | CoreModules/elements/element_sort.hh:14-35 | in a sorted sequence no later record compares Less than an earlier one |
| ElementSort.SortPairs | CoreModules/elements/element_sort.hh:14-35 | the span ends up sorted and a permutation of itself |
| ElementSort.InsertDown | CoreModules/elements/element_sort.hh:14-35 | one insertion step extends the sorted prefix by one and permutes the array |
| ElementSort.SplitPairs | CoreModules/elements/element_sort.hh:37-47 | the two sequences have the span's length and hold its elements and its indices position by position |
| ElementSort.PopulateSortedElementsIndices | CoreModules/elements/element_sort.hh:9-48 | the span is a sorted permutation of itself; elements[i] and indices[i] are the halves of pair i; indices is non-decreasing under the comparator |

## Left out

- ResamplingRingBuffer (dsp/resampler.hh:148-202) and the commented-out ResamplingBuffer are not part of this model.
- Floating point: samples, ratio and phase are exact reals. Rounding is not modelled, including in `(float)input_rate / (float)output_rate` and in the `ratio == 1.f` test.
- Integer widths: the 32-bit wrap-around of `inpos`, `outpos` and the strides is not modelled. The `uint8_t` cast of the default strides cannot change a value of at most 16.
- A zero output rate is excluded (`outRate > 0`), because the source divides by it.
- A stride of 0 is excluded (`inStride >= 1`, `outStride >= 1`). The termination measure of the block loops (what is left of the two spans) needs both strides to be at least 1. The source itself loops forever, on non-empty spans, with both strides 0, or with an output stride of 0 at ratio 0; other zero-stride calls end, but are not modelled.
- AudioResampling.AudioResampler.SetInputStride: requires stride >= 1, which the source does not check; see the line above.
- AudioResampling.AudioResampler.SetOutputStride: requires stride >= 1, which the source does not check; see the line above.
- AudioResampling.AudioResampler.Process: bounds the returned lengths by the span sizes only when each span size is a multiple of its stride. Otherwise the last read or write position can lie up to one stride past the end of its span (`BlockReadsPastUnalignedInput`: four inputs at stride 3 end at position 6). The source then truncates the span with `subspan` to a length longer than the span, which is undefined; the model returns that length, and `BlockOverrunBound` bounds it by less than one stride past the end.
- The default argument `num_channels = 2` of both multi-channel constructors is not modelled: the Dafny constructors always take the channel count explicitly.
- The input and output spans are distinct arrays (`inp != out`). Aliasing between a `const float` span and a `float` span over the same memory is not modelled.
- Span truncation by reference is modelled as returned lengths (`inLen`, `outLen`). The unused counter `j` of the unity copy loop is not modelled.
- `get_input` is modelled as a finite sequence read at a cursor. Each pull-form call requires enough samples for the reads it makes (`ReadsNeeded`). A callback that produces samples forever, like the test's wrapping lambda, is represented by a long enough prefix (`Saw`).
- The strides of the pull form's `Resampler` are stored but never used by the source. The model stores them the same way.
- `std::sort` has no specified algorithm. It is modelled by an insertion sort, and only sortedness and permutation are claimed. No order is claimed among pairs with equal indices but different elements: sorting is not stable.
- The output vectors are returned as fresh sequences, not as cleared vectors passed by reference. `reserve` has no observable effect and is not modelled.
- The value of `NoElementIndices` is defined in element_counter.hh, which is not part of this model. It is an unspecified constant here, and every property holds for any value.
- The element variant is collapsed into its five categories. `std::visit` with the `SetIndex` visitor becomes a match.
- fs_access, the file browser, waveform_display, CoreProcessor, CoreHelper, register_module, async_thread and midi_message are not part of this model.
