# PPG preprocessing and traditional estimators — a Dafny model

This project models the deterministic layer of the PPG ML service around its
numerical libraries:

- the preprocessing of `ml-service/preprocessing/ppg.py`: the 10-sample guard,
  DC removal, normalising the cutoffs by the Nyquist rate and clamping them
  into [0.01, 0.99], the choice between a 4th-order Butterworth bandpass and
  the highpass fallback, the resampling decision (0.1 Hz tolerance) and the
  resampled length `int(len * fs_target / fs_original)`, min-max and z-score
  normalisation, flatline detection, and the band masks and fallbacks of the
  SNR estimate;
- the traditional estimators of `ml-service/main.py`: heart rate from peak
  indices (60 / mean interval, clipped to [40, 200] BPM), HRV as the
  population standard deviation of the intervals in ms, respiratory rate as
  60 × the first strongest bin in [0.15, 0.4] Hz, embedding-variance quality
  `min(var / 10, 1)`, and the guards and response record of `analyze_ppg`
  (30-sample guard, `confidence = min(q · 1.2, 1)`, a warning when q ≤ 0.7,
  failure records for exceptions raised by preprocessing or by the embedding
  call).

All arithmetic is over Dafny's exact `real`. The library calls (Butterworth
design and zero-phase filtering, FFT resampling, `find_peaks`, Welch's PSD,
the embedding model, `sqrt`, `log10`) are the arrow-typed fields of
`External.Library`. Every `np.std` of the code goes through that `sqrt`
(`External.Std`). The model relies only on the facts in `External.Sound`:
- filtering keeps the length;
- resampling to `num` samples yields `num` samples;
- peak indices are in bounds and strictly increasing;
- a Welch spectrum has as many frequencies as powers;
- `sqrt` is the non-negative square root.

Every other property holds whatever those collaborators compute.

Modules: `Wrappers` (Option, and Result for raised exceptions), `Stats` (the
numpy reductions: sum, mean, population variance, min, max, diff, clip,
`int()` truncation), `External` (the collaborators), `Ppg`
(`ppg.py`), `Estimators` (the estimators of `main.py`), `Analysis`
(`analyze_ppg`).

Choices the code makes, which the model follows:
- The normalised cutoffs are clamped into [0.01, 0.99] (ppg.py:52-53).
- The resampled length is `int(len * fs_target / fs_original)`, a truncation, and a length of zero is not rejected (ppg.py:66).
- The embedding-quality normaliser is 10.0 (main.py:241). ml-service/models/papagei.py:190 uses 5.0 in its own quality helper, which this service does not call.
- The defaults `method="minmax"` (ppg.py:76) and `threshold=0.01` (ppg.py:105) are the default arguments of `Ppg.NormalizeSignal` and `Ppg.DetectFlatline`.

## Model

| member | source | states |
|---|---|---|
| `Stats.Min` | ml-service/preprocessing/ppg.py:88 | the minimum is one of the samples and no sample is smaller |
| `Stats.Max` | ml-service/preprocessing/ppg.py:89 | the maximum is one of the samples and no sample is larger |
| `Stats.Clip` | ml-service/main.py:206 | `np.clip` lands in [lo, hi], is the identity inside and the nearer bound outside |
| `Stats.Trunc` | ml-service/preprocessing/ppg.py:66 | Python `int()` truncates toward zero: floor for non-negative, ceiling for negative values |
| `Stats.MeanOfCentred` | ml-service/preprocessing/ppg.py:43 | subtracting the mean leaves a signal whose mean is exactly zero |
| `Stats.SumDiff` | ml-service/main.py:204 | the sum of `np.diff` telescopes to last minus first |
| `Stats.VarianceShift` | ml-service/preprocessing/ppg.py:95-98 | subtracting a constant leaves the population variance unchanged |
| `Stats.VarianceScale` | ml-service/preprocessing/ppg.py:98 | dividing by d divides the population variance by d² |
| `Stats.VarianceZeroIffConstant` | ml-service/main.py:216 | the population variance is zero exactly when all samples are equal |
| `External.Std` | ml-service/preprocessing/ppg.py:96 | `np.std` of a non-empty array is the non-negative square root of the population variance, and zero exactly when all samples are equal |
| `Ppg.RemoveDc` | ml-service/preprocessing/ppg.py:42-43 | DC removal keeps the length, keeps all differences between samples, and yields mean zero |
| `Ppg.ClampNorm` | ml-service/preprocessing/ppg.py:52-53 | a clamped cutoff is in [0.01, 0.99] and equals its raw value whenever that is already in range |
| `Ppg.DesignFilter` | ml-service/preprocessing/ppg.py:47-62 | a zero rate fails on the Nyquist division; bandpass exactly when the clamped low cutoff is below the clamped high one, with 0.01 ≤ low < high ≤ 0.99; otherwise a highpass at the raw high cutoff capped at 0.99; order 4 |
| `Ppg.DefaultCutoffsBandpassRange` | ml-service/preprocessing/ppg.py:15-16 | with the default 0.5/8 Hz cutoffs and a positive rate, the bandpass is chosen exactly when 100/99 < fs < 1600 Hz |
| `Ppg.ResampleLength` | ml-service/preprocessing/ppg.py:66 | for rates of the same sign the output length is the floor of len·fs_target/fs_original |
| `Ppg.FilterStage` | ml-service/preprocessing/ppg.py:41-62 | a zero rate fails on the Nyquist division; otherwise `filtfilt` runs the designed filter over the DC-removed waveform (or the waveform itself when DC removal is off), and a filtered signal has the waveform's length |
| `Ppg.PreprocessPpg` | ml-service/preprocessing/ppg.py:11-73 | fewer than 10 samples fail first; a zero rate fails on the Nyquist division; the rate returned is one of the two inputs; within 0.1 Hz the filtered signal is returned with the original rate and the waveform's length; otherwise the filtered signal resampled to the truncated length len·fs_target/fs_original, which is the output's length, at the target rate; past the length guard it succeeds whenever filtering and any needed resampling do, and any error is the error of one of those two steps |
| `Ppg.MinMaxNormalize` | ml-service/preprocessing/ppg.py:87-93 | fails exactly on an empty signal; for a range above 1e-10 maps order-preservingly into [0, 1] with minima at 0 and maxima at 1; otherwise subtracts the minimum, leaving values in [0, 1e-10] |
| `Ppg.MinMaxScaled` | ml-service/preprocessing/ppg.py:90-91 | the scaled samples lie in [0, 1], are 0 at the minimum, 1 at the maximum, and keep the samples' order |
| `Ppg.ZScore` | ml-service/preprocessing/ppg.py:94-100 | the z-scored signal keeps its length and has mean zero; when np.std exceeds 1e-10 every difference between two samples is divided by it, otherwise the differences are kept |
| `Ppg.ZScoreUnitVariance` | ml-service/preprocessing/ppg.py:96-98 | when np.std exceeds 1e-10 the z-scores have variance exactly one |
| `Ppg.ZScoreOfTwoSamples` | ml-service/preprocessing/ppg.py:94-98 | the z-scores of [0, 4] are [-1, 1]: mean 2 and np.std 2 |
| `Ppg.NormalizeSignal` | ml-service/preprocessing/ppg.py:76-102 | "minmax" (the default) and "zscore" select the two normalisations; any other name is the unknown-method error |
| `Ppg.DetectFlatline` | ml-service/preprocessing/ppg.py:105-116 | `np.std(signal) < threshold` (0.01 by default) holds exactly when the signal is non-empty, the threshold is positive and the variance is below the squared threshold |
| `Ppg.ConstantSignalIsFlat` | ml-service/preprocessing/ppg.py:116 | a constant non-empty signal is a flatline for every positive threshold |
| `Ppg.BandBins` | ml-service/preprocessing/ppg.py:137-138 | the bins a band mask selects: every bin in the inclusive band, only those, each once and in increasing order |
| `Ppg.BandBinsUnique` | ml-service/preprocessing/ppg.py:137-138 | any increasing listing of exactly the in-band bins is the mask's selection, so the selection is determined by the mask |
| `Ppg.BandPowers` | ml-service/preprocessing/ppg.py:141-142 | the masked powers are the powers of the selected bins in bin order, one per bin; empty exactly when no bin lies in the band |
| `Ppg.SnrFromSpectrum` | ml-service/preprocessing/ppg.py:136-148 | 0.0 when the signal band or the noise band has no bin or the noise power is not positive; otherwise 10·log10 of the ratio of mean band powers |
| `Ppg.BoundaryBinInBothBands` | ml-service/preprocessing/ppg.py:137-138 | a 4.0 Hz bin is selected by both masks and its power counts in the signal and the noise band |
| `Ppg.CalculateSnr` | ml-service/preprocessing/ppg.py:119-148 | for the Welch spectrum taken with min(len, int(fs·4)) samples per segment: 0.0 when the signal band or the noise band has no bin or the noise power is not positive, otherwise 10·log10 of the ratio of mean band powers |
| `Estimators.PeakDistanceValid` | ml-service/main.py:201 | the find_peaks distance int(fs·0.4) is at least one sample exactly when fs ≥ 2.5 Hz |
| `Estimators.IntervalSum` | ml-service/main.py:204 | there are n − 1 intervals and they sum to (last − first)/fs |
| `Estimators.MeanIntervalTelescopes` | ml-service/main.py:204-205 | the mean inter-peak interval is the time from the first to the last peak, (last − first)/fs, over the n − 1 gaps |
| `Estimators.HeartRateClosedForm` | ml-service/main.py:204-205 | for increasing peaks the mean interval is positive and 60 / mean interval = 60·(n − 1)·fs/(last − first) |
| `Estimators.EstimateHeartRate` | ml-service/main.py:197-206 | None exactly below two peaks; otherwise in [40, 200] and equal to the clipped closed form 60·(n − 1)·fs/(last − first) |
| `Estimators.HrvVariance` | ml-service/main.py:212-216 | None exactly below three peaks; otherwise the variance of the intervals in ms², non-negative, and zero exactly when the peaks are evenly spaced |
| `Estimators.ConstantIntervalsIffEvenlySpaced` | ml-service/main.py:215 | the millisecond intervals are all equal exactly when consecutive peaks are equally far apart |
| `Estimators.EstimateHrv` | ml-service/main.py:209-217 | None exactly below three peaks; otherwise the non-negative square root of the interval variance, zero exactly when the peaks are evenly spaced |
| `Estimators.BandArgmaxFrom` | ml-service/main.py:226-229 | None exactly when no bin lies in the band; otherwise an in-band bin of maximal power with every earlier in-band bin strictly weaker (numpy's first argmax) |
| `Estimators.EstimateRespiratoryRate` | ml-service/main.py:220-230 | None exactly when no bin lies in [0.15, 0.4] Hz; otherwise 60 × the frequency of the first strongest in-band bin, between 9 and 24 |
| `Estimators.SignalQuality` | ml-service/main.py:233-242 | in [0, 1]; 0.0 for an empty embedding; 1.0 once the variance reaches 10; variance/10 below that |
| `Estimators.ZeroQualityIffFlatEmbedding` | ml-service/main.py:237-241 | a non-empty embedding scores zero exactly when all its components are equal |
| `Analysis.Confidence` | ml-service/main.py:174 | never above 1; at least the quality for a quality in [0, 1]; non-negative for non-negative quality; exactly 1 from quality 5/6 on |
| `Analysis.QualityWarnings` | ml-service/main.py:175 | no warning exactly when quality > 0.7, otherwise only "Low signal quality detected" |
| `Analysis.AnalyzeWith` | ml-service/main.py:131-183 | every response is a failure record (success false, quality 0.0, an error, no estimates, no embeddings, no warnings) or a success record (quality in [0, 1], confidence in [quality, 1], no warning above 0.7 and exactly "Low signal quality detected" otherwise, no embeddings, HR in [40, 200], RR in [9, 24]); under 30 samples the insufficient-data failure; a preprocessing or embedding exception gives "Processing error: " and its message; on success the quality is that of the embedding and heart rate, HRV and respiratory rate are the three estimators run on the processed signal at the rate preprocessing reports |
| `Analysis.AnalyzeAsWritten` | ml-service/main.py:156 | as written, every response is a failure record |
| `Analysis.AsWrittenAlwaysFails` | ml-service/main.py:156 | as written, a signal that preprocesses fails with the missing-argument TypeError's message |
| `Analysis.Analyze` | ml-service/main.py:131-183 | with the rate passed to the embedding call, every response is a failure or success record and short signals get the insufficient-data failure |
| `Analysis.AnalyzeSucceedsWhenCollaboratorsDo` | ml-service/main.py:156-176 | with the rate passed, a signal that preprocesses and embeds yields a success record whose quality is that of its embedding |

## Findings

| source | as written | input that shows it | evidently intended | confidence | as-written member | corrected member |
|---|---|---|---|---|---|---|
| ml-service/main.py:156 | `extract_embeddings(processed_signal)` omits the rate that ml-service/models/papagei.py:111-116 requires, so the call raises a TypeError and the handler returns its failure record | any signal of 30 or more samples that preprocesses, e.g. 300 samples at 30 Hz | `extract_embeddings(processed_signal, fs_target)` | high; not executed | `Analysis.AnalyzeAsWritten` | `Analysis.Analyze` |

## Left out

- The numerics of scipy and numpy (Butterworth design, `filtfilt`, FFT resampling, `find_peaks`, `welch`, `sqrt`, `log10`) and the embedding model are parameters; no accuracy property (such as the heart rate of a sine) is claimed. Only the facts listed for `External.Sound` are assumed of them.
- Floating point: the model computes over exact reals, so the 1e-10 and 0.1 thresholds are exact, and float32 conversion, rounding, NaN and infinities are not modelled. The one NaN the code depends on, `np.std` of an empty array in `detect_flatline`, is modelled as the comparison being false.
- Exceptions raised inside `find_peaks` or `welch` (for instance on an empty resampled signal) are not modelled: those collaborators are total functions here, so `Analysis.AnalyzeWith` gives no failure record for them.
- `Estimators.EstimateHeartRate`, `Estimators.HrvVariance` and `Estimators.EstimateHrv`: require fs ≥ 2.5 Hz, which `find_peaks` needs for a distance of at least one sample; `EstimateHeartRate` also requires strictly increasing peaks, which is what `find_peaks` returns. Their only caller, `Analysis.AnalyzeWith`, runs them at 125 Hz or within 0.1 Hz of it.
- The fixed-length segmentation and segment resampling belong to ml-service/models/papagei.py and to helpers that are not part of this model; so does its own quality helper (normaliser 5.0).
- The model-not-loaded 503 branch, the global model handle and its load/unload at start-up, FastAPI and CORS setup, environment loading and the server start are service concerns.
- ml-service/api/endpoints.py (a placeholder), ml-service/download_model.py (download and file I/O) and the HTTP test and comparison scripts are not modelled.
