# owlpy core, modelled in Dafny

owlpy is a library for rotational seismology. This project models the exact, index-driven rules that its signal processing is built on, and proves properties about them:

- **Array utilities** (`Util`, `util.dfy`):
  - trace validation and stacking (`get_traces_data_as_array`, `_all_same`);
  - the endpoint-checked range `arange2` with its four rounding policies;
  - the prefix-sum windowed sum `moving_sum`, in modes `valid`, `full` and `same`, with both window branches.
- **Azimuth gridsearch** (`Gridsearch`, `gridsearch.dfy`):
  - the azimuth grid;
  - the loop that fills `grid[azimuth, 0/1, :]` in place;
  - the `same`-mode window sums;
  - the per-sample first-occurrence argmax and the gathers;
  - the time axis.
- **PCA post-processing** (`Pca`, `pca.dfy`):
  - choosing the principal component;
  - the incidence branch on the component count;
  - the azimuth fold `((90 - a) + 180) % 360 - 180`, then `% 180`, in Python's floor modulo over reals.
- **Tilt correction** (`Correction`, `correction.dfy`):
  - the power-of-two FFT lengths;
  - the zero-padded buffers;
  - the smoothing switch of `transfer_function`;
  - the preconditions, sign, method dispatch, coherence/band mask and output truncation of `remove_tilt`.
- **Step detection** (`Steps`, `steps.dfy`):
  - the onset/end extraction loops of `trigger`;
  - the nearest-sample search `find_nearest`;
  - the per-step angles of `get_angle`.

`Base` (`base.dfy`) holds the shared pieces:

- the error kinds;
- a result type;
- Python's `round` (half to even), `floor`, `ceil` and float `%`;
- numpy's first-occurrence `argmax`/`argmin`.

Foreign numerics are parameters of the model, each constrained only by the shape facts the code relies on:

- `sin`, `cos`, `sqrt` and `arctan2`;
- `np.cov` and `np.linalg.eigh`;
- `rfft`, `irfft` and the Blackman-window convolution;
- the coherence and transfer-function arithmetic.

Where numpy reads or writes arrays in place, the model does the same:

- `moving_sum` fills a preallocated `array` slice by slice;
- `arange2` scales and shifts an `array` in place;
- the gridsearch fills an `array3`;
- the zero-padded FFT buffers and the `remove_tilt` mask are `array`s.

Each such method is proved equal to a specification function, and the properties are proved about that function.

Three behaviours of the code are worth spelling out:

- **PCA errors.** The docstring of `pca` (src/polarisation/pca.py:38-41) says it raises `PCAError` when the traces are too short, but the body never raises it. A single trace fails inside `eigh`, modelled as `LinearAlgebra`; short traces reach `np.cov`, a parameter of the model.
- **Azimuth range.** The intermediate azimuth `((90 - a) + 180) % 360 - 180` lies in `[-180, 180)`, because Python's `%` floors.
- **Long windows in the gridsearch.** `moving_sum` stores `cx[..., nn-1]` into the long-window slices of mode `same` (src/util.py:178-180) without `np.newaxis`. On the 3-D grid of the gridsearch that broadcast fails for every window longer than the trace, except with one or two azimuths and 7 samples with a window of 9, or 8 samples with a window of 10. Where numpy raises ValueError, the model returns `BroadcastMismatch`.

## Model

| member | source | states |
|---|---|---|
| Base.PyRound | src/util.py:125-127 | the integer is within 0.5 of its argument, and even on an exact tie (Python's `round`) |
| Base.PyMod | src/polarisation/pca.py:81-82 | the result lies in `[0, m)` and differs from the argument by a multiple of `m` (float `%` with a positive modulus) |
| Base.FirstArgMax | src/polarisation/gridsearch.py:71 | the index holds a maximum, and every earlier entry is strictly smaller |
| Base.FirstArgMin | src/tilt/util.py:270-271 | the index holds a minimum, and every earlier entry is strictly larger |
| Util.AllSame | src/util.py:28-29 | all equal to the first element iff pairwise equal |
| Util.GetTracesDataAsArray | src/util.py:54-95 | empty list ⇒ NoTraces (iff); IncompatibleTraces iff some trace's (size, dtype, deltat, tmin) differs from the first's; otherwise one row per trace, in order, row k = trace k's samples |
| Util.SingleTraceStacks | src/util.py:84-95 | a single trace always passes the check and stacks into one row holding its samples |
| Util.Arange | src/util.py:119-138 | step 0 fails; InconsistentRange iff policy is `raise` and the reached endpoint misses `stop` by more than `step*epsilon` (so `round`/`floor`/`ceil` never raise); in every other case it succeeds, with `max(0, n)` values `start + i*step` |
| Util.Arange2 | src/util.py:119-138 | the same checks, then building `0..n-1`, multiplying by `step` and adding `start` in place yields exactly `Arange` |
| Util.BuildGrid | src/util.py:135-138 | the array built by `np.arange(n)`, `*= step`, `+= start` holds `start + i*step` at every index i |
| Util.ScaleInPlace | src/util.py:136 | every entry is multiplied by `step` in place |
| Util.ShiftInPlace | src/util.py:137 | every entry is shifted by `start` in place |
| Util.ArangeIsEvenlySpaced | src/util.py:135-138 | the grid starts at `start` and consecutive values differ by `step` |
| Util.ArangeRaiseEndsNearStop | src/util.py:128-133 | under `raise`, a returned grid ends within `step*epsilon` of `stop` |
| Util.ArangeNegativeStepRaises | src/util.py:130-133 | under `raise`, a negative step always raises, because the tolerance `step*epsilon` is negative |
| Util.ArangeExamples | src/util.py:127-138 | `arange2(0, 9, 3)` is `[0, 3, 6, 9]` and `arange2(0, 10, 3)` raises |
| Util.ValidSums | src/util.py:149-155 | length `max(0, N-n+1)` |
| Util.FullSums | src/util.py:157-166 | length `N+n-1` |
| Util.SameSums | src/util.py:168-180 | length `N` |
| Util.CumSum | src/util.py:143 | entry k is the sum of `x[0..k]` |
| Util.PrefixDifference | src/util.py:155 | a difference of running totals is the sum of the samples in between |
| Util.MovingSum | src/util.py:141-182 | equals the specification for every mode; `full` and `same` of an empty input fail with IndexOutOfRange |
| Util.FillValid | src/util.py:149-155 | the slice assignments produce entry i = sum of `x[i..i+n-1]`, with no entries when `n > N` |
| Util.FillFull | src/util.py:157-166 | both window branches produce entry k = sum of `x[j]` for `max(0,k-n+1) <= j <= min(k,N-1)` |
| Util.FillSame | src/util.py:168-180 | both window branches produce the `full` entries `n1 .. n1+N-1` |
| Util.FillSameShortWindow | src/util.py:171-175 | for `n <= N`, the three slice assignments give exactly the `same` sums |
| Util.ShortWindowSame | src/util.py:172-175 | when entries hold what the three short-window slices store, entry i is the `full` sum at `i + (n-1)//2` |
| Util.FillSameLongWindow | src/util.py:176-180 | for `n > N`, the three clipped slice assignments give exactly the `same` sums |
| Util.LongWindowSame | src/util.py:177-180 | when entries hold what the three long-window slices store, entry i is the `full` sum at `i + (n-1)//2` |
| Util.FullEntry | src/util.py:159-166 | each slice expression of mode `full` stores the clipped window sum at its position |
| Util.SameIsCentredFull | src/util.py:168-180 | mode `same` keeps length N, and its entry i is `full` entry `i + (n-1)//2` |
| Util.ValidIsInteriorOfFull | src/util.py:149-166 | `valid` entry i is `full` entry `i+n-1` |
| Util.MovingSumExample | src/util.py:149-180 | five ones with window 3 give `[3,3,3]`, `[1,2,3,3,3,2,1]` and `[2,3,3,3,2]` |
| Util.BroadcastSelf | src/util.py:177 | a shape broadcasts with itself to itself, so the first long-window slice always stores |
| Util.OneDimensionalLongWindowStores | src/util.py:176-180 | on a 1-D signal the long-window slices of mode `same` always store, since `cx[nn-1]` is a scalar |
| Util.StoreIntoGridRow | src/util.py:178 | storing a `(naz, 2)` value into a `(naz, 2, k)` slice succeeds iff `naz` is 1 or 2 and `k` is 2 |
| Util.BroadcastGridRow | src/util.py:179-180 | `(naz, 2)` minus `(naz, 2, k)` broadcasts iff `naz` is 1 or 2 and `k` is 1 or 2, giving shape `(naz, 2, 2)` |
| Util.StoreIntoBroadcastRow | src/util.py:179-180 | storing the `(naz, 2, 2)` difference into a `(naz, 2, k)` slice, for `k` of 1 or 2, succeeds iff `k` is 2 |
| Util.LongWindowSlices | src/util.py:169-180 | the middle and last long-window slices are both 2 long exactly for `(N, n)` = (7, 9) or (8, 10) |
| Util.GridLongWindowStores | src/util.py:176-180 | on a `(naz, 2, N)` array with `n > N`, the long-window branch stores its slices iff `naz` is 1 or 2 and `(N, n)` is (7, 9) or (8, 10) |
| Gridsearch.CorrelationRow | src/polarisation/gridsearch.py:64-69 | one normalised correlation per sample: the `same`-mode sums keep the sample count |
| Gridsearch.FillGrid | src/polarisation/gridsearch.py:56-62 | after the loop, every row a holds `rot*acc_t(a)` in plane 0 and `acc_t(a)**2` in plane 1 |
| Gridsearch.WriteRow | src/polarisation/gridsearch.py:58-62 | row `ia` afterwards holds `rot*acc_t` in plane 0 and `acc_t**2` in plane 1, and every other row is unchanged |
| Gridsearch.RowEnergyNonNegative | src/polarisation/gridsearch.py:62 | plane 1 of a filled row is never negative |
| Gridsearch.CorrelationSurface | src/polarisation/gridsearch.py:64-69 | for a window that `moving_sum` can apply to the grid, the window sums of the filled grid, normalised, give `CorrelationRow` of each azimuth's transverse acceleration |
| Gridsearch.Correlations | src/polarisation/gridsearch.py:56-69 | for a window that `moving_sum` can apply to the grid, one correlation row per azimuth, namely `CorrelationRow` of that azimuth's transverse acceleration `-acc_n*sin(az) + acc_e*cos(az)`, each row `nsamples` long |
| Gridsearch.Analyse | src/polarisation/gridsearch.py:53-76 | for non-empty data and grid and a window that `moving_sum` can apply to the grid: the given azimuths, times `tmin + i*deltat`, one correlation row per azimuth, and the best azimuths and correlations as the first-occurrence argmax gathers |
| Gridsearch.MaxIndices | src/polarisation/gridsearch.py:71 | per sample, the smallest azimuth index whose correlation is maximal in that column |
| Gridsearch.GatherBest | src/polarisation/gridsearch.py:72-73 | per sample, the azimuth and correlation at the argmax; the correlation is at least every entry in its column |
| Gridsearch.GridsearchAzimuthRotAcc | src/polarisation/gridsearch.py:48-76 | needs exactly three traces (else WrongTraceCount) and propagates validation and grid errors in order; `deltat = 0` fails, no samples fail with IndexOutOfRange, a window longer than the trace that `moving_sum` cannot broadcast on the grid fails with BroadcastMismatch, an empty grid fails with EmptySequence; each of these errors is stated for its own case, it fails iff one of these holds, and on success the result is what `Analyse` describes for the grid and `nsum = round(time_sum/deltat)` |
| Gridsearch.AzimuthGridShape | src/polarisation/gridsearch.py:55 | the azimuth grid starts at 0 and steps by `delta` |
| Gridsearch.DefaultAzimuthGrid | src/polarisation/gridsearch.py:55 | a 5-degree grid has 72 azimuths, ending at 355 |
| Gridsearch.DefaultGridNeedsShortWindow | src/polarisation/gridsearch.py:55-66 | with the default 72-azimuth grid, every window longer than the trace makes the gridsearch fail |
| Pca.CentredAzimuth | src/polarisation/pca.py:81 | lies in `[-180, 180)` and is congruent to `90 - raw` modulo 360 |
| Pca.WrapAzimuth | src/polarisation/pca.py:81-82 | lies in `[0, 180)` and is congruent to `90 - raw` modulo 180 |
| Pca.PrincipalComponent | src/polarisation/pca.py:72 | the last column of the eigenvectors, with one entry per component |
| Pca.Incidence | src/polarisation/pca.py:74-78 | exactly 90 when there are two components |
| Pca.IncidenceInRange | src/polarisation/pca.py:74-78 | lies in `[0, 90]`, given an `arctan2` that maps the first quadrant into `[0, 90]` |
| Pca.Pca | src/polarisation/pca.py:64-84 | validation errors propagate; fewer than two traces fail with LinearAlgebra; succeeds iff the data stack with at least two traces, and then returns `Components` of the covariance and its eigen-system |
| Pca.Components | src/polarisation/pca.py:66-84 | cov, evals and evecs are returned unchanged; the last eigenvalue is the largest; the azimuth is the fold of the principal component's angle and lies in `[0, 180)`; the incidence is that of the principal component, and 90 for two traces |
| Pca.SingleTraceFails | src/polarisation/pca.py:64-68 | a single trace passes validation, yet `pca` fails with LinearAlgebra |
| Pca.WrapIsModulo180 | src/polarisation/pca.py:81-82 | the two folds together are one floor modulo 180 of `90 - raw` |
| Pca.WrapDependsOnResidue | src/polarisation/pca.py:80-82 | raw angles congruent modulo 180 give the same azimuth |
| Pca.WrapIgnoresPolarity | src/polarisation/pca.py:80-82 | turning the raw angle by ±180 (flipping the eigenvector's sign) leaves the azimuth unchanged |
| Pca.WrapExamples | src/polarisation/pca.py:80-82 | east gives 90, north gives 0, north-west gives 135 |
| Correction.CeilLog2 | src/tilt/correction.py:6 | the least exponent whose power of two reaches n |
| Correction.FloorLog2 | src/tilt/correction.py:24 | the exponent whose power of two brackets n from below |
| Correction.NextPow2 | src/tilt/correction.py:5-6 | fails iff `n <= 0`; otherwise a power of two in `[n, 2n)` |
| Correction.NextPow2IsLeast | src/tilt/correction.py:5-6 | no power of two that is at least n is smaller |
| Correction.NearestPow2 | src/tilt/correction.py:9-28 | fails iff `x <= 0`; otherwise a power of two greater than `x/2` |
| Correction.NearestPow2IsNearest | src/tilt/correction.py:23-28 | no power of two is closer to x, and on a tie the lower one is chosen |
| Correction.PowersBracket | src/tilt/correction.py:23-28 | no power of two lies strictly between `2**floor(log2 x)` and `2**ceil(log2 x)` |
| Correction.FftLength | src/tilt/correction.py:77-78 | fails iff `ndat <= 0`; otherwise exactly `2*_nearest_pow2(ndat)`, which is even and exceeds `ndat` |
| Correction.Padded | src/tilt/correction.py:79-82 | length n, the signal in `[0, ndat)`, zeros in `[ndat, n)` |
| Correction.ZeroPad | src/tilt/correction.py:79-82 | the zero-filled buffer after `g[:ndat] = s` is `Padded` |
| Correction.RfftFreq | src/tilt/correction.py:87 | `n/2 + 1` frequencies |
| Correction.Densities | src/tilt/correction.py:90-92 | three densities as long as the spectra |
| Correction.ScaledSpectrum | src/tilt/correction.py:85-86 | `n/2 + 1` spectral lines |
| Correction.Smoothed | src/tilt/correction.py:94-103 | `nsmooth == 0` passes the densities through unchanged; a negative window fails; a positive one gives `max(M, nsmooth)` lines |
| Correction.SmoothingWindow | src/tilt/correction.py:94 | `smooth = 0` gives a window of 0 lines, and a positive `smooth` with positive `dt` never gives a negative one |
| Correction.SpectraOf | src/tilt/correction.py:85-110 | `dt = 0` fails with DivisionByZero; otherwise, with `nsmooth` the rounded smoothing window, a negative window fails with EmptySequence, a window longer than the `n/2 + 1` lines fails with BroadcastMismatch, and it succeeds iff `0 <= nsmooth <= n/2 + 1`; on success the frequencies, transfer function, coherence and auto spectrum all have `n/2 + 1` lines |
| Correction.TransferFunctionSpec | src/tilt/correction.py:74-110 | AssertionFailed iff the sizes differ; empty input fails in the logarithm; `dt = 0` fails; for non-empty equal-size input and `dt != 0` it succeeds iff the smoothing window lies in `[0, nfft/2 + 1]`, failing with EmptySequence below and BroadcastMismatch above; the outputs have `nfft/2 + 1` lines |
| Correction.TransferFunction | src/tilt/correction.py:74-110 | computing through zero-filled buffers yields exactly `TransferFunctionSpec` |
| Correction.UnsmoothedCoherence | src/tilt/correction.py:94-105 | with `smooth = 0` the coherence is computed from the raw densities |
| Correction.Mask | src/tilt/correction.py:235-240 | one entry per line |
| Correction.BuildMask | src/tilt/correction.py:235-240 | every entry is 0 or 1, and 1 iff `abs(coh) >= threshold` and the frequency lies within the given `fmin`/`fmax` |
| Correction.Sign | src/tilt/correction.py:213 | +1 or -1 |
| Correction.Direct | src/tilt/correction.py:216 | as long as the response |
| Correction.CorrectedSpectrum | src/tilt/correction.py:242-251 | one line per spectral line |
| Correction.Output | src/tilt/correction.py:251 | exactly `ndat` samples |
| Correction.RemoveTiltSpec | src/tilt/correction.py:210-251 | AssertionFailed on a size or method mismatch; `direct` returns `response[i] - sign*g*sin(source[i])`; the frequency methods fail on empty input, on `dt = 0`, and on a given transfer function or coherence of the wrong shape, and with a given pair of the right shape it succeeds (iff both ways); without a given pair it fails and succeeds exactly as the smoothing window of `transfer_function` decides; the output has the input's length |
| Correction.FrequencyDomainSpec | src/tilt/correction.py:228-251 | `dt = 0` fails with DivisionByZero; otherwise AssertionFailed iff the transfer function or coherence does not have `nfft/2 + 1` lines, and succeeds iff both have; the output has the input's length |
| Correction.FrequencyDomain | src/tilt/correction.py:228-251 | building the mask by indexed assignment yields exactly `FrequencyDomainSpec` |
| Correction.RemoveTilt | src/tilt/correction.py:210-251 | estimating the transfer function through `TransferFunction` when none is given yields exactly `RemoveTiltSpec` |
| Correction.DirectWithoutTiltKeepsResponse | src/tilt/correction.py:213-216 | with a zero tilt signal and `sin 0 = 0`, `direct` returns the response |
| Correction.BandAboveNyquistKeepsResponse | src/tilt/correction.py:228-251 | with `fmin` above the Nyquist frequency the `coh` method returns the response unchanged, given `irfft(rfft(x)) = x` |
| Correction.MaskBelowBandIsZero | src/tilt/correction.py:236-237 | with `fmin` above the Nyquist frequency every mask entry is 0 |
| Correction.ZeroMaskCorrectsNothing | src/tilt/correction.py:243 | an all-zero mask leaves the response spectrum as it is |
| Correction.FrequencyBelowNyquist | src/tilt/correction.py:230 | every `rfftfreq` line is at most `1/(2 dt)` |
| Steps.IndicesWhere | src/tilt/util.py:215-216 | strictly ascending indices; the predicate holds at each of them, and every index where it holds is listed |
| Steps.ExtractSteps | src/tilt/util.py:218-226 | the loop with its running `on0` yields exactly the specification `Scan` |
| Steps.ScanKeepsInvariant | src/tilt/util.py:218-235 | the loop state stays consistent: at most one emission per pass, emissions from in-range run ends, spacing above 1.0, and `on0` equal to the latest emission |
| Steps.StepKeepsInvariant | src/tilt/util.py:220-226 | one pass of the loop keeps the invariant: a new emission comes from an in-range run end, is more than 1.0 from `on0`, and becomes the new `on0` |
| Steps.StepsAreRunEnds | src/tilt/util.py:220-225 | every emitted time is `idx[i]*delta + c` for a run end i (so never the last index) whose `idx[i]*delta` lies in `[start, stop]` |
| Steps.StepsAreSpaced | src/tilt/util.py:218-235 | at most `max(0, len-1)` emissions; the first is more than 1.0 from 0 and each later one more than 1.0 from its predecessor |
| Steps.Trigger | src/tilt/util.py:215-237 | onsets come from the indices with `cft < d0` and offset `c_on`; ends come from the indices with `cft > d1` and offset `c_off` |
| Steps.NearestIndex | src/tilt/util.py:270-271 | the first index minimising `abs(t[i] - x)` |
| Steps.FindNearest | src/tilt/util.py:270-272 | empty `t` fails; on success, the nearest indices for `on` and `off` and the data there; otherwise it fails with IndexOutOfRange iff an index is past the data, and succeeds iff both are within it |
| Steps.SampleTimes | src/tilt/util.py:376 | one time per sample |
| Steps.SampleTimesIncrease | src/tilt/util.py:376 | the sample times increase strictly |
| Steps.NearestToSampleTime | src/tilt/util.py:270-271 | the nearest sample to a sample's own time is that sample |
| Steps.StepAngle | src/tilt/util.py:379-380 | `find_nearest` succeeds on non-empty data, and the angle is the absolute difference of the two data values it returns, hence never negative |
| Steps.GetAngle | src/tilt/util.py:376-381 | fails iff there are onsets and either fewer ends than onsets or no data; when `off` is empty or data exists the error is IndexOutOfRange, otherwise EmptySequence; on success one angle per onset, angle i being `StepAngle` of onset i and end i over the times `i/sampling_rate` |

## Left out

- Floating point is not modelled. The model uses exact reals, so there is no rounding in the arithmetic and no NaN or Inf from zero-energy windows; numpy's argmax preference for NaN is not modelled either. Integer sizes are unbounded.
- Foreign numerics are parameters of the model, not definitions:
  - `sin`, `cos`, `sqrt` and `arctan2`;
  - `np.cov` and `np.linalg.eigh`;
  - `rfft`, `irfft` and `np.convolve` with `np.blackman`;
  - the coherence and `sqrt(Grr/Gss)` arithmetic, and the correlation normalisation.

  Only their shapes are assumed, plus, where a lemma needs it, `irfft(rfft(x)) = x` or the range of `arctan2`.
- `_unpack_trace` (src/util.py:32-51) dispatches on ObsPy and Pyrocko classes. The model has a single trace record instead, and drops the TypeError for other objects.
- numpy dtypes are reduced to a name: `arange2`'s `dtype` argument is always float, and the stacked array is real-valued.
- `moving_sum` is modelled in one dimension. On N-D input only mode `valid`, and mode `same` with `n <= N`, apply the 1-D rule along the last axis of every row. The slices that use `cx[..., -1]` or `cx[..., nn-1]` without `np.newaxis` either fail to broadcast or broadcast across the wrong axes. Those are src/util.py:162 and :165-166 in mode `full`, and :178-180 in the long-window branch of mode `same`. Where that branch can store its slices at all is stated by `Util.SameLongWindowStores`; the values numpy then stores are not modelled.
- Util.MovingSum: requires a window of at least one sample. numpy's negative-index slicing for `n <= 0` is not modelled, and an unknown `mode` string (which reaches `return y` unbound) is not representable.
- Gridsearch.GridsearchAzimuthRotAcc:
  - It requires a window `round(time_sum/deltat)` of at least one sample.
  - `deltat` is read from the trace record. ObsPy traces lack that attribute, and the resulting AttributeError is not modelled.
  - The window sums and their normalisation enter as `CorrelationRow` over the transverse acceleration. The grid-filling loop takes that projection as a function argument.
- Gridsearch.GridsearchAzimuthRotAcc: with one or two azimuths and (samples, window) = (7, 9) or (8, 10), numpy stores the long-window slices of src/util.py:178-180 across the wrong axes; the model returns the per-row `same` sums there instead.
- Gridsearch.Analyse: admits that one- or two-azimuth long window too, and gives the per-row sums for it, not numpy's misaligned ones.
- Gridsearch.Correlations: admits that one- or two-azimuth long window too, and gives the per-row sums for it, not numpy's misaligned ones.
- Gridsearch.CorrelationSurface: admits that one- or two-azimuth long window too, and gives the per-row sums for it, not numpy's misaligned ones.
- Pca.Pca: the covariance of zero-length traces (NaN with a warning in numpy) is whatever the `cov` parameter returns.
- Correction.NearestPow2 and Correction.NextPow2: the model takes integer arguments (both calls of `_nearest_pow2` pass an array size; `_next_pow2` has no caller). The floating-point `log` ratio, which can misround near powers of two, is not modelled.
- Correction.RemoveTiltSpec:
  - For the `coh` and `freq` methods, the output values are defined by its body (`Output` over `CorrectedSpectrum`) and stated through the lemmas, not by its ensures. Its ensures state when it fails and when it succeeds, the `direct` output and the output length.
- The `ValueError` branch for an unknown method at src/tilt/correction.py:248-249 is unreachable after the assert at line 211, and has no counterpart in the model.
- Steps.GetAngle:
  - It requires a positive sampling rate. A zero rate makes numpy produce infinite and NaN times, not an error.
  - `st[0]` of an empty stream is not modelled. The samples of the first trace are the input.
- Steps.Trigger: `classic_sta_lta`, the characteristic function, is not part of this model. Its output is the input sequence `cft`. The trigger plot is left out too.
- Other parts of src/tilt/util.py are not part of this model:
  - `get_data` (file reading, instrument-response removal, `sys.exit`);
  - `calc_residual_disp`, `theo_resid_disp` and `calc_height_of_mass`;
  - `p2r`/`r2p`;
  - plotting.

  They are I/O, or calls into ObsPy, or trigonometric and complex floating-point formulas.
