# sweep_analyzer core in Dafny

This project models the signal-processing core of sweep_analyzer, a scanner built on HackRF receivers.

The main component is `process_sweep` in drone_detection.py, a `Detector` class over the module's globals. It does five things:

- It averages the first five sweeps into a baseline.
- It fills a ten-deep history ring, then writes the ring round-robin.
- It extracts the maximal runs of bins that deviate from the baseline.
- It filters the runs through a chain of reject rules based on the best three-bin mean.
- It keeps the `TRACKED` map of suspicious ranges, with create, refresh and evict.

Around it sit smaller state machines, each modelled in its own module:

- the C helper's step counter and row write (sweep_callback.c);
- the double buffer that `_rx_callback` flips (hackrf_sweep/core.py);
- the averaging, hold and persistence filters of `FFTProcessor` (core/fft.py);
- the two example detectors (analyzemodule.py, example.py);
- the rolling waterfall buffer (gui/widgets/waterfall_plot.py).

Conventions:

- dB values are `real`.
- A sweep is a `seq<seq<real>>` with one row per sweep step.
- A NumPy error, such as a shape mismatch or an `argmax` of an empty row, becomes a `Failure` outcome (a `ShapeMismatch` outcome in `Detector.ProcessSweep`) that changes nothing the source would not already have changed.
- I/O and foreign code become inputs:
  - `measure_rssi` is a function parameter: `real -> Probe` in drone_detection.py, `(Option<string>, real) -> real` in example.py.
  - `HISTORY.std(axis=0)` is a sweep-shaped input `std`.
  - The FFT/dB row of the C helper and of `FFTProcessor.process` is an input row.
  - The Hann coefficients are an input sequence.

Modules, one per file:

- `Wrappers` — Option and Result.
- `Levels` — sums, means and the robust three-bin level; `_top3_mean`.
- `Grid` — element-wise sweep arithmetic.
- `Segments` — `_segments`.
- `Classifier` — `_classify`.
- `Tracker` — keys, entries, and the create/refresh/evict functions that specify the tracker.
- `Detection` — the masks and the reject chain.
- `DroneDetection` — the `Detector` class.
- `SweepCallback` — sweep_callback.c.
- `HackrfCore` — hackrf_sweep/core.py.
- `FftFilters` — core/fft.py.
- `AnalyzeModule`, `ExampleScanner`, `Waterfall` — the remaining three files.

Where the code's own comments and its statements disagree, the model follows the statements.

- **Run length rule.** The comment on `MIN_BINS = 3` (drone_detection.py:33) calls it the least number of consecutive bins for a confident signal. The filter (drone_detection.py:208) skips a run only when `seg_len < MIN_BINS and seg_len > 2`, a condition no length meets, so runs of one or two bins are kept. `Detection.Assess` models the rule as written. `Detection.LengthRuleInert` states that with `MIN_BINS = 3` it never rejects a run.
- **Baseline.** drone_detection.py freezes the baseline after the warm-up. analyzemodule.py smooths its baseline after every sweep. Each module models its own file.

## Model

| member | source | states |
|---|---|---|
| Levels.Top3Mean | drone_detection.py:94-110 | `_top3_mean`'s sliding-window loop returns the robust level: the plain mean below three bins, otherwise the maximal three-bin window mean |
| Levels.RobustIsMaximumWindowMean | drone_detection.py:99-110 | for three or more bins the robust level is at least every window mean and equals one of them |
| Levels.RobustWithinRange | drone_detection.py:94-110 | the robust level of a non-empty run lies between its smallest and its largest bin |
| Levels.MaxWindowMeanDominates | drone_detection.py:104-108 | the kept maximum is at least the mean of every window the loop visits |
| Levels.MaxWindowMeanAttained | drone_detection.py:104-108 | the kept maximum is the mean of some window |
| Levels.Robust | drone_detection.py:94-110 | the level `_top3_mean` computes: the mean below three bins, else the best three-bin window mean; its meaning is stated by `Levels.RobustIsMaximumWindowMean` and `Levels.RobustWithinRange`, and `Levels.Top3Mean` is the loop proved equal to it |
| Levels.MaxWindowMean | drone_detection.py:99-110 | the largest three-bin window mean; `Levels.MaxWindowMeanDominates` and `Levels.MaxWindowMeanAttained` state that it is the maximum |
| Levels.MeanBounds | drone_detection.py:96-97 | the plain mean lies between the smallest and the largest element |
| Levels.MeanWithin | drone_detection.py:96-97 | a mean of values within `[lo, hi]` lies within `[lo, hi]` |
| Levels.WindowMeanBounds | drone_detection.py:100-106 | every three-bin window mean lies between the run's minimum and maximum |
| Levels.SeqMin | drone_detection.py:94-110 | the minimum is at most every element and is one of them |
| Levels.SeqMax | drone_detection.py:94-110 | the maximum is at least every element and is one of them |
| Grid.Zeros | drone_detection.py:169 | `np.zeros_like`: same shape, every cell 0 |
| Grid.Add | drone_detection.py:171 | element-wise sum of same-shaped sweeps |
| Grid.Sub | drone_detection.py:191 | element-wise difference of same-shaped sweeps |
| Grid.Div | drone_detection.py:174 | element-wise division by a non-zero scalar |
| Grid.SumSweeps | drone_detection.py:171 | the sum of same-shaped sweeps keeps their shape |
| Grid.MeanOfCopies | drone_detection.py:171-174 | five (any `n > 0`) identical sweeps average to that sweep |
| Grid.SumOfCopies | drone_detection.py:171 | summing `n` copies of a sweep multiplies every cell by `n` |
| Segments.Segments | drone_detection.py:79-91 | the open-run scan returns `Runs(mask)` and these are exactly the maximal runs |
| Segments.RunsAreMaximal | drone_detection.py:79-91 | runs are non-empty, ascending, separated by a `false` bin, all `true` inside, closed by a `false` bin or the mask's end on the right and by a `false` bin or index 0 on the left, and cover every `true` bin |
| Segments.MaximalRunsUnique | drone_detection.py:79-91 | any list with that shape equals `Runs(mask)`: the maximal-run decomposition is unique |
| Segments.RunsFromSound | drone_detection.py:83-90 | the runs found from index `i` decompose the `true` bins at or after `i` |
| Segments.RunsFromUnique | drone_detection.py:83-90 | every decomposition of the bins from `i` is the one the scan finds |
| Segments.RunEnd | drone_detection.py:86-90 | a run opened at `i` closes at the first `false` bin or at `len(mask)` |
| Segments.NoTrueNoRuns | drone_detection.py:79-91 | a mask without `true` has no runs |
| Segments.AscendingStarts | drone_detection.py:87 | later runs start after earlier ones end |
| Segments.ConsRun | drone_detection.py:86-88 | a maximal run in front of a decomposition of the later bins is a decomposition |
| Segments.TailOfDecomposition | drone_detection.py:86-88 | dropping the first run of a decomposition leaves a decomposition of the bins after it |
| Classifier.ClassifyFollowsTable | drone_detection.py:113-125 | the rule cascade yields no label exactly when no band matches, and a label only from a band that matches centre and width |
| Classifier.ClassifyIsUniqueMatch | drone_detection.py:117-124 | the label is a band's kind exactly when that band matches, so first-match is the unique match |
| Classifier.BandsDisjoint | drone_detection.py:117-124 | no two bands of the table match the same range |
| Classifier.ClassifyBounds | drone_detection.py:117-124 | a labelled range is at most 25 MHz wide and centred in 432-5820 MHz; FPV video needs at least 15 MHz of width, every other label at most 5 MHz |
| Classifier.Classify | drone_detection.py:113-125 | the four rules in source order; their meaning is stated by `Classifier.ClassifyFollowsTable`, `Classifier.ClassifyIsUniqueMatch` and `Classifier.ClassifyBounds` |
| Tracker.DefaultConfig | drone_detection.py:27-36 | the configuration with the `CONFIG.get` defaults: threshold 10 dB, noise floor -100 dBm, `MIN_BINS` 3 (`DefaultMinBins`, the value `Detection.LengthRuleInert` assumes), dispersion ceiling 5 dB, and a bin width of `sample_rate / 256 / 1e6` MHz |
| Tracker.KeyOf | drone_detection.py:220-222 | the key is the range's first and end frequencies in MHz; `Tracker.KeysOfIff` and `Tracker.ApplyAllKeys` state how detections map to keys |
| Tracker.ProbeHz | drone_detection.py:224 | the probe frequency is the key's centre in Hz; `Tracker.Refreshed` uses the same probe |
| Tracker.ApplyOne | drone_detection.py:225-256 | one detection's insert-or-refresh and its report; its effect is stated by `Tracker.ApplyOneEffect` and `Tracker.ReconfirmKeepsKey` |
| Tracker.ApplyAll | drone_detection.py:206-256 | the detections applied in order; `Tracker.ApplyAllKeepsInv` and `Tracker.ApplyAllKeys` state what it keeps and which keys it leaves |
| Tracker.LevelNow | drone_detection.py:262-264 | the robust level of an entry's stored bins in the current sweep |
| Tracker.Collapsed | drone_detection.py:262-265 | an entry is evicted when its current robust level is less than the threshold from its baseline; `Tracker.Evict` and `Tracker.EvictLeavesDeviating` state the effect |
| Tracker.ApplyOneEffect | drone_detection.py:224-252 | one detection inserts or refreshes its key and no other entry. A new entry starts at count 1 with the detection's baseline and class. An existing entry keeps its baseline and class, takes the new master level, readings, timestamp and bins, and counts one more. The report is stable exactly past three confirmations |
| Tracker.ReconfirmKeepsKey | drone_detection.py:236-241 | reconfirming the same bins keeps the key set, the baseline and the class, and adds one to the count |
| Tracker.ApplyAllKeepsInv | drone_detection.py:220-241 | applying detections keeps every entry's key equal to the key of its bins, its class equal to the class of its key, its count at least 1 and its bins in the sweep; one report per detection |
| Tracker.ApplyAllKeys | drone_detection.py:220-241 | after a detection pass the keys are the old keys plus the key of every detection |
| Tracker.KeysOfIff | drone_detection.py:220-222 | a key is produced by a list of detections exactly when one detection's bins map to it |
| Tracker.Evict | drone_detection.py:261-266 | an entry stays exactly when its re-measured robust level is at least the threshold from its stored baseline; survivors are unchanged |
| Tracker.EvictLeavesDeviating | drone_detection.py:261-266 | after eviction every entry deviates from its baseline by at least the threshold |
| Tracker.EvictIdempotent | drone_detection.py:261-266 | a second eviction against the same sweep removes nothing |
| Tracker.EvictKeepsInv | drone_detection.py:261-266 | eviction keeps the entry invariant |
| Tracker.Refreshed | drone_detection.py:128-134 | `_refresh_range` replaces the readings and the timestamp from probing the centre and changes nothing else |
| Tracker.RefreshKeepsInv | drone_detection.py:133-134 | refreshing keeps the entry invariant |
| Detection.UpMask | drone_detection.py:192 | bin `j` is set exactly when `curr - base >= THRESHOLD_DB` |
| Detection.DownMask | drone_detection.py:193 | bin `j` is set exactly when `curr - base <= -THRESHOLD_DB` |
| Detection.Assess | drone_detection.py:207-219 | the reject chain on one run; `Detection.AssessIff` states both directions of when a run survives |
| Detection.Survivors | drone_detection.py:206-219 | the surviving runs in order; `Detection.SurvivorsIff`, `Detection.SurvivorsAreAssessed` and `Detection.SomesIff` state what survives |
| Detection.RowDetections | drone_detection.py:203-219 | the up runs then the down runs of one row that survive; `Detection.RowDetectionsIff` states both directions |
| Detection.Detections | drone_detection.py:197-219 | every row's detections in row order; `Detection.DetectionsIff` and `Detection.DetectionsQualify` state both directions |
| Detection.AssessIff | drone_detection.py:207-219 | a run survives exactly when the length rule as written lets it through, not both robust levels are under the noise floor, the mean dispersion is at most the ceiling and the robust delta is at least the threshold; it is reported with both robust levels |
| Detection.LengthRuleInert | drone_detection.py:208-209 | with the default `MIN_BINS` of 3 (`Tracker.DefaultMinBins`) the length rule never rejects a run |
| Detection.QuietRowNoDetections | drone_detection.py:197 | a row with no bin past the threshold either way yields no detection, so the row pre-filter changes nothing |
| Detection.SurvivorsIff | drone_detection.py:206-219 | a detection survives a list of runs exactly when some run is assessed to it |
| Detection.SomesIff | drone_detection.py:206-219 | the detections kept are exactly the present results, in run order |
| Detection.SurvivorsAreAssessed | drone_detection.py:206-219 | the survivors are the present results of assessing every run in order |
| Detection.Assessed | drone_detection.py:206-219 | one result per run, each the reject chain's verdict on that run |
| Detection.RowDetectionsIff | drone_detection.py:203-219 | a row's detections are exactly the runs of its up and down masks that pass, with the mask's sign and the row's index |
| Detection.DetectionsIff | drone_detection.py:197-219 | a cycle's detections are exactly the passing maximal runs of every row's up and down masks |
| Detection.DetectionsQualify | drone_detection.py:197-219 | every detection lies inside the sweep and passes every rule |
| Detection.MaximalRunsFit | drone_detection.py:203-204 | every run lies inside its row |
| Detection.MaskFor | drone_detection.py:205 | the mask of either sign has the row's length |
| DroneDetection.Detector.constructor | drone_detection.py:43-52 | empty accumulator, count 0, no baseline, history index 0, not filled, nothing tracked |
| DroneDetection.Detector.ProcessSweep | drone_detection.py:153-273 | dispatches on the state and keeps the invariant (see the four members below); a sweep whose shape differs from the session's is refused with no change |
| DroneDetection.Detector.WarmUp | drone_detection.py:167-177 | the sweep is added to the accumulator; count and warm-up list grow by one; the baseline is the accumulator / 5 exactly on the fifth sweep; the history index and the tracker are untouched |
| DroneDetection.Detector.Begin | drone_detection.py:168-170 | the first sweep creates a zero accumulator of its shape and a fresh ring of ten zero sweeps |
| DroneDetection.Detector.FillHistory | drone_detection.py:180-186 | slot `HIST_IDX` takes the sweep, the index grows by one, `HIST_FILLED` is set exactly at 10, and nothing is detected |
| DroneDetection.Detector.PushHistory | drone_detection.py:272-273 | slot `HIST_IDX % 10` takes the sweep and the index grows by one; the ring holds the last ten sweeps |
| DroneDetection.Detector.DetectCycle | drone_detection.py:188-273 | tracker and reports are the detection cycle's, then the ring is written |
| DroneDetection.Detector.UpdateTracker | drone_detection.py:191-266 | tracker and reports are the detection pass followed by eviction |
| DroneDetection.Detector.DetectAll | drone_detection.py:197-258 | the row loop applies every detection of the sweep in row order |
| DroneDetection.Detector.ScanRowAt | drone_detection.py:198-258 | one turn of the row loop applies the detections of that row |
| DroneDetection.Detector.ScanRow | drone_detection.py:198-206 | a row's up runs and then its down runs are applied, and a quiet row is skipped |
| DroneDetection.Detector.ScanRuns | drone_detection.py:206-258 | the run loop applies the survivors of a mask's runs in order |
| DroneDetection.Detector.HandleRun | drone_detection.py:207-256 | one run is rejected or applied as the reject chain and the tracker update say |
| DroneDetection.Detector.EvictCollapsed | drone_detection.py:261-266 | the deletion loop leaves exactly `Evict` of the tracker |
| DroneDetection.Detector.RefreshRange | drone_detection.py:128-134 | a tracked key gets `Refreshed`; an untracked key is not brought back; the invariant is kept |
| DroneDetection.Cycle | drone_detection.py:191-266 | after a detection cycle every entry keeps the entry invariant, lies in the sweep and deviates by at least the threshold |
| DroneDetection.CycleInBounds | drone_detection.py:220-241 | after the detection pass every entry lies in the sweep and keeps the invariant |
| DroneDetection.SummedStep | drone_detection.py:171 | adding a sweep to the accumulator sums one more warm-up sweep |
| DroneDetection.ZerosSummed | drone_detection.py:169 | the zero accumulator is the sum of no sweeps |
| DroneDetection.SlotsStep | drone_detection.py:272-273 | writing slot `n % 10` after `n` sweeps keeps the ring holding the last ten |
| DroneDetection.SameShapeInBounds | drone_detection.py:263 | bins inside the baseline are inside a same-shaped sweep |
| SweepCallback.Callback.constructor | sweep_callback.c:9-18 | sizes and counter 0, one thread, not prepared |
| SweepCallback.Callback.Prepare | sweep_callback.c:24-46 | records the sizes, resets the counter to 0, clamps the threads to at least 1 and allocates fresh buffers |
| SweepCallback.Callback.Cleanup | sweep_callback.c:48-55 | the helper is no longer prepared |
| SweepCallback.Callback.Process | sweep_callback.c:57-91 | unprepared: returns 0 and nothing changes. Prepared: centres both lanes, writes exactly the row at `g_current_step * g_fft_size` with no other cell changed, advances the counter with wrap, and returns 1 exactly on the wrap |
| SweepCallback.Callback.WriteRow | sweep_callback.c:75-84 | the row lands at its offset and no other cell changes |
| SweepCallback.Callback.CentreSamples | sweep_callback.c:64-73 | both lanes of `g_in` hold the centred, scaled and windowed samples |
| SweepCallback.Callback.CentreInto | sweep_callback.c:64-73 | the single-pass loop subtracts from each sample the mean of the samples up to it |
| SweepCallback.Callback.Rssi | sweep_callback.c:96-131 | unprepared: returns 0.0 and nothing changes. Prepared: `g_power` holds the row, and the result is the robust level (NaN for no bins) |
| SweepCallback.Callback.BestWindow | sweep_callback.c:123-130 | the sliding window over `g_power` returns the robust level |
| SweepCallback.RunningMeanStep | sweep_callback.c:67-68 | `mean += (x - mean) / (i + 1)` keeps `mean` equal to the mean of the samples read |
| SweepCallback.CentredAt | sweep_callback.c:69-72 | sample `i` is centred on the mean of samples `0..i` |
| SweepCallback.ConstantLaneCentresToZero | sweep_callback.c:64-73 | a constant lane centres to zero |
| SweepCallback.Lane | sweep_callback.c:65-66 | lane `off` reads the interleaved bytes `2i + off` |
| SweepCallback.Tick | sweep_callback.c:85-89 | the counter after one call, reset to 0 when it reaches the step count; `SweepCallback.TicksAreModular` and `SweepCallback.FinishedEveryStepCount` state its meaning over many calls |
| SweepCallback.TicksAreModular | sweep_callback.c:85-90 | with a positive step count the counter after `k` calls is `k` modulo the step count |
| SweepCallback.FinishedEveryStepCount | sweep_callback.c:85-90 | call `k` reports a finished sweep exactly when `k` is a multiple of the step count |
| SweepCallback.NonPositiveStepCountAlwaysFinishes | sweep_callback.c:85-90 | with a step count of 0 or less every call finishes a sweep and writes row 0 |
| HackrfCore.Truncate | hackrf_sweep/core.py:91 | Python `int()` of a float truncates toward zero |
| HackrfCore.StepCountAsWritten | hackrf_sweep/core.py:91 | fails exactly on a zero step, else the truncated quotient |
| HackrfCore.EmptySweepOverflows | hackrf_sweep/core.py:91-98 | a range narrower than one step gives zero rows, less than one helper row write |
| HackrfCore.StepCount | hackrf_sweep/core.py:91-98 | the corrected count: accepts exactly the row counts of at least 1 as written |
| HackrfCore.HackrfSweep.FitsIffRows | hackrf_sweep/core.py:92-98 | in a consistent state the helper's next row fits both buffers exactly when the prepared helper has at least one row |
| HackrfCore.HackrfSweep.constructor | hackrf_sweep/core.py:27-41 | buffer 0 active, STEP_COUNT 16, both buffers 16 x 256 zeros |
| HackrfCore.HackrfSweep.RxCallback | hackrf_sweep/core.py:53-66 | returns 0; on a finished sweep hands on the pre-flip buffer and flips 0/1, otherwise keeps the active buffer; only the active buffer's row changes; the next row still fits |
| HackrfCore.HackrfSweep.StartSweep | hackrf_sweep/core.py:88-98 | as written: records the range and STEP_COUNT; a zero step or a negative count fails with the helper and the buffers untouched; any count of 0 or more makes buffer 0 active, replaces both buffers by STEP_COUNT x 256 zeros and prepares the helper with STEP_COUNT rows; the next row fits exactly when the corrected count accepts the range, so a zero count leaves a prepared helper whose first row does not fit |
| HackrfCore.HackrfSweep.StartSweepChecked | hackrf_sweep/core.py:88-98 | the corrected start: a range of fewer than one step is refused as well, with the helper and the buffers untouched; afterwards the helper's next row always fits both buffers |
| HackrfCore.HackrfSweep.Finish | hackrf_sweep/core.py:141 | the helper is cleaned up |
| FftFilters.FftProcessor.constructor | core/fft.py:22-28 | `avg_window` defaults to 1 and is clamped to at least 1; empty buffer, no holds and no persistence |
| FftFilters.FftProcessor.Process | core/fft.py:30-59 | the size is recorded; a frame of no samples fails with `EmptyFrame` before the buffer, holds and persistence are touched; otherwise the frame joins the bounded buffer and the result is the column means of the buffer with the linspace frequencies; holds and persistence advance; a ragged buffer or a hold of another width fails and keeps the holds |
| FftFilters.FftProcessor.Push | core/fft.py:39-47 | the deque holds the last `avg_window` frames pushed |
| FftFilters.FftProcessor.Hold | core/fft.py:50-57 | the min and max holds take the element-wise min and max, and the persistence decays, each starting at the first frame |
| FftFilters.FftProcessor.CurrentMinMax | core/fft.py:61-63 | `(None, None)` before any frame, else the holds of all frames; changes nothing |
| FftFilters.FftProcessor.CurrentPersistence | core/fft.py:65-67 | `None` before any frame, else the persistence; changes nothing |
| FftFilters.LastFrames | core/fft.py:46-47 | a `deque(maxlen = w)` holds the last `w` frames, oldest first |
| FftFilters.ColumnMeans | core/fft.py:47 | the mean of every column of the stacked buffer |
| FftFilters.MinHold | core/fft.py:50 | the min hold over the frames seen; `FftFilters.HoldsBracketFrames` states that it is the per-bin minimum |
| FftFilters.MaxHold | core/fft.py:51 | the max hold over the frames seen; `FftFilters.HoldsBracketFrames` states that it is the per-bin maximum |
| FftFilters.Persistence | core/fft.py:54-57 | the decayed persistence over the frames seen; `FftFilters.PersistenceWithinHolds` bounds it by the holds |
| FftFilters.HoldsBracketFrames | core/fft.py:50-51 | min hold <= every frame <= max hold at each bin, each hold attained by some frame |
| FftFilters.PersistenceWithinHolds | core/fft.py:54-57 | the persistence lies between the min and the max hold |
| FftFilters.AverageWithinBuffer | core/fft.py:47 | the averaged row lies between the smallest and the largest buffered value per bin |
| FftFilters.AverageOfCopies | core/fft.py:47 | a buffer of one repeated frame averages to that frame |
| FftFilters.Decay | core/fft.py:57 | `0.9 * old + 0.1 * new` per bin |
| FftFilters.ElemMin | core/fft.py:50 | `np.minimum` of two frames |
| FftFilters.ElemMax | core/fft.py:51 | `np.maximum` of two frames |
| FftFilters.Linspace | core/fft.py:43 | `n` points starting at `lo` and ending at `hi` |
| AnalyzeModule.Analyzer.ProcessSweep | analyzemodule.py:5-26 | first sweep: the baseline is a copy and nothing is reported. Later sweeps: the anomalies are reported against the pre-update baseline, then the baseline is smoothed in place. A shape mismatch fails |
| AnalyzeModule.Analyzer.Adopt | analyzemodule.py:9-12 | the baseline becomes a fresh copy of the sweep |
| AnalyzeModule.Analyzer.Blend | analyzemodule.py:26 | in place, each cell becomes `0.99 * baseline + 0.01 * sweep` |
| AnalyzeModule.Analyzer.constructor | analyzemodule.py:3 | no baseline |
| AnalyzeModule.Anomalies | analyzemodule.py:15-23 | the anomalies of the first rows in row-major order; `AnalyzeModule.AnomaliesIff` and `AnalyzeModule.AnomaliesOrdered` state both directions and the order |
| AnalyzeModule.RowAnomalies | analyzemodule.py:18-23 | the anomalies of one row's first bins; `AnalyzeModule.RowAnomaliesIff` states both directions |
| AnalyzeModule.AnomaliesIff | analyzemodule.py:15-23 | a cell is reported exactly when its delta is strictly above 10 dB, with that delta |
| AnalyzeModule.RowAnomaliesIff | analyzemodule.py:18-23 | within a row, exactly the bins strictly above 10 dB are reported |
| AnalyzeModule.AnomaliesOrdered | analyzemodule.py:21-23 | reports come in strictly increasing row-major order |
| AnalyzeModule.QuietSweep | analyzemodule.py:15-26 | a sweep equal to the baseline reports nothing and leaves the baseline unchanged |
| AnalyzeModule.Smooth | analyzemodule.py:26 | element-wise `0.99 * baseline + 0.01 * sweep` |
| ExampleScanner.Scanner.ProcessSweep | example.py:27-54 | the first sweep becomes the baseline with no report, and the baseline is never reassigned; later sweeps yield the row signals; a shape mismatch or empty rows fail |
| ExampleScanner.Scanner.constructor | example.py:24 | no baseline |
| ExampleScanner.FreqMhz | example.py:46 | the frequency of a bin: start, plus whole steps, plus whole bins |
| ExampleScanner.RowSignal | example.py:43-54 | one row's report; `ExampleScanner.RowSignalIff` states when it exists and what it holds |
| ExampleScanner.Signals | example.py:42-54 | the reports of the first rows in row order; `ExampleScanner.SignalsOnePerRow` states one per row, in order |
| ExampleScanner.RowSignalIff | example.py:42-54 | a row reports exactly when some rise is strictly above 10 dB, once, at the first bin of the largest rise, with the frequency formula, the bin's level and one RSSI query per receiver in list order |
| ExampleScanner.SignalsOnePerRow | example.py:42-45 | at most one report per row, in increasing row order |
| ExampleScanner.ArgMax | example.py:43 | `np.argmax`: the first index of the largest value |
| Waterfall.WaterfallPlot.constructor | gui/widgets/waterfall_plot.py:12-20 | `size` rows of 1024 zeros, `size` 200 when not given |
| Waterfall.WaterfallPlot.UpdateSpectrum | gui/widgets/waterfall_plot.py:22-27 | with a matching width the rows move up by one and the last row is the new spectrum; with another width the buffer is zeros except the last row; there are always `size` rows; no rows fail |
| Waterfall.WaterfallPlot.Roll | gui/widgets/waterfall_plot.py:24 | row `i` is the old row `i + 1` and the first row moves to the end |
| Waterfall.WaterfallPlot.Reset | gui/widgets/waterfall_plot.py:25-26 | `size` rows of zeros of the new width |
| Waterfall.WaterfallPlot.WriteLast | gui/widgets/waterfall_plot.py:27 | only the last row changes, to the new spectrum |

## Left out

- HackrfCore.StepCountAsWritten: the quotient `(stop - start) / step` (hackrf_sweep/core.py:91) is an exact real, not a float. The float quotient can lie just under a whole number, and `int()` then drops a row: for 0.0, 0.3 and 0.1 Python gets `int(2.9999999999999996) == 2`, where the model gets 3.
- HackrfCore.HackrfSweep.RxCallback: requires that the helper's next row fits the active buffer. After `StartSweep` with a zero row count it does not, and the C helper then writes past an empty buffer (see Findings). That write is undefined behaviour in C, and the model does not describe it.
- FFT, Hann window, `sqrt`, `log10` and float32 numerics (sweep_callback.c:38-45, 74-84, 111-117; core/fft.py:40-42): the dB row and the window coefficients are inputs, and all values are exact reals.
- `measure_rssi` is not part of this model; it is a function parameter returning a timestamp and the auxiliary readings.
- The RSSI oracles are pure functions. In drone_detection.py `measure` is `real -> Probe`; in example.py `rssi` is `(Option<string>, real) -> real`. So equal queries give equal readings. The two receivers of `SLAVE_SERIALS = [None, None]` (example.py:20, 51-52) always report the same value, and a key probed twice in one cycle gets the same timestamp and readings. Real hardware measurements need not agree, and the model does not describe readings that vary between calls.
- `HISTORY.std(axis=0)` (drone_detection.py:190) is an input of the sweep's shape, not computed from the ring.
- The saved baseline, `np.load`/`np.save` (drone_detection.py:57-60, 163-164, 175, 188) and all printing are file and terminal I/O: the model always starts from the warm-up, and reports stand for printed lines.
- `time.time` cycle timing (drone_detection.py:157-159) is not modelled.
- `list_serials`, device setup, streaming and `hackrf_*` calls (drone_detection.py:64-77, 277-297; hackrf_sweep/core.py:100-140) are hardware plumbing.
- `_update_tracked` (drone_detection.py:144-149) is a background thread over `TRACKED` without a lock. Only `_refresh_range`'s effect on one entry is modelled, as a sequential step.
- `_rx_callback` hands on the index of the filled buffer instead of calling the user callback, whose code is not part of this model.
- NumPy broadcasting of differently shaped arrays is not modelled. A shape mismatch is an error outcome.
- The order of entries in `TRACKED` is not modelled: the tracker is a map. This does not change eviction, which judges each entry alone.
- Frequency keys are exact reals. Float rounding in key equality is not modelled, and distinct bins may share a key. No injectivity is claimed.
- Levels.Top3Mean: an empty array (NaN in NumPy) is excluded by its precondition; every caller passes a non-empty run.
- Waterfall.WaterfallPlot.constructor: `size` is a `nat`, so a negative size is excluded by its type; `np.zeros((size, 1024))` (gui/widgets/waterfall_plot.py:20) raises ValueError for it.
- `img.setImage` (gui/widgets/waterfall_plot.py:28) is display only.
- `load_config` and the configuration defaults (hackrf_sweep/core.py:78-86) are file I/O; `start_sweep`'s range, thread count and window are parameters.
- The FFTW plan and thread setup (sweep_callback.c:29-45) are foreign calls.
- example.py:58-63 calls `start_sweep` with keyword arguments its signature does not accept; this entry point is not modelled.

## Findings

| source | as written | input that shows it | evidently intended | confidence | as-written member | corrected member |
|---|---|---|---|---|---|---|
| hackrf_sweep/core.py:91-98 | `STEP_COUNT = int((stop - start) / step)` may be 0, and the buffers are sized `STEP_COUNT x FFT_SIZE`, yet `hs_process` always writes a full row of 256 values at offset `g_current_step * 256` | `start_sweep` with range 50-52 MHz and step 5 MHz: `STEP_COUNT = 0`, empty buffers, and the first callback writes 256 values past them | refuse a range narrower than one step, so every row written fits the buffer | not executed | HackrfCore.HackrfSweep.StartSweep | HackrfCore.HackrfSweep.StartSweepChecked |
