/**
 * The decision rules of ml-service/preprocessing/ppg.py around scipy:
 * the length guard, DC removal, the cutoff normalisation and clamp, the
 * choice between a bandpass and a highpass fallback, the resampling
 * decision and length, the two normalisations, flatline detection and the
 * band masks of the SNR estimate.
 */
module Ppg {
  import opened Wrappers
  import opened Stats
  import opened External

  /** Fewest samples preprocess_ppg_signal accepts. */
  const MinSamples: nat := 10
  /** Butterworth order of both filter shapes. */
  const FilterOrder: nat := 4
  /** Bounds every normalised cutoff is clamped into. */
  const NormFloor: real := 0.01
  const NormCeiling: real := 0.99
  /** Rates closer than this (Hz) are not resampled. */
  const ResampleTolerance: real := 0.1
  /** A range or standard deviation at or below this is treated as zero (1e-10). */
  const Degenerate: real := 0.0000000001
  /** The SNR bands (Hz); 4.0 belongs to both. */
  const SignalBandLow: real := 0.5
  const SignalBandHigh: real := 4.0
  const NoiseBandLow: real := 4.0
  const NoiseBandHigh: real := 8.0

  const TooShortMessage := "Signal too short for processing"
  /** Python's message for a float division by 0.0. */
  const DivisionByZeroMessage := "float division by zero"
  /** numpy's message for np.min of an empty array. */
  const EmptyMinimumMessage := "zero-size array to reduction operation minimum which has no identity"
  const UnknownMethodPrefix := "Unknown normalization method: "
  /** The default method of normalize_signal. */
  const DefaultMethod := "minmax"
  /** The default standard-deviation threshold of detect_flatline. */
  const FlatlineThreshold: real := 0.01

  /** The pair preprocess_ppg_signal returns: the signal and the rate it is sampled at. */
  datatype Preprocessed = Preprocessed(signal: seq<real>, rate: real)

  /** waveform - np.mean(waveform): only a constant offset is removed, and the mean becomes zero. */
  function RemoveDc(waveform: seq<real>): (r: seq<real>)
    requires |waveform| > 0
    ensures |r| == |waveform|
    ensures Mean(r) == 0.0
    ensures forall i, j :: 0 <= i < |r| && 0 <= j < |r| ==> r[i] - r[j] == waveform[i] - waveform[j]
  {
    MeanOfCentred(waveform);
    Shift(waveform, Mean(waveform))
  }

  /** A cutoff in Hz as a fraction of the Nyquist rate fs / 2. */
  function Normalised(f: real, fs: real): real
    requires fs != 0.0
  {
    f / (fs / 2.0)
  }

  /** max(0.01, min(x, 0.99)) */
  function ClampNorm(x: real): (r: real)
    ensures NormFloor <= r <= NormCeiling
    ensures NormFloor <= x <= NormCeiling ==> r == x
    ensures x < NormFloor ==> r == NormFloor
    ensures x > NormCeiling ==> r == NormCeiling
  {
    MaxOf(NormFloor, MinOf(x, NormCeiling))
  }

  /**
   * The filter preprocess_ppg_signal designs: a bandpass between the two
   * clamped cutoffs when they are in order, otherwise a highpass at the raw
   * high cutoff capped at 0.99. A zero original rate fails on the division
   * by the Nyquist rate.
   */
  function DesignFilter(fsOriginal: real, filterLow: real, filterHigh: real): (r: Result<FilterDesign>)
    ensures r.Err? <==> fsOriginal == 0.0
    ensures r.Err? ==> r.message == DivisionByZeroMessage
    ensures r.Ok? ==> r.value.order == FilterOrder
    ensures r.Ok? ==>
      (r.value.Bandpass? <==>
        ClampNorm(Normalised(filterLow, fsOriginal)) < ClampNorm(Normalised(filterHigh, fsOriginal)))
    ensures r.Ok? && r.value.Bandpass? ==>
      && NormFloor <= r.value.low < r.value.high <= NormCeiling
      && r.value.low == ClampNorm(Normalised(filterLow, fsOriginal))
      && r.value.high == ClampNorm(Normalised(filterHigh, fsOriginal))
    ensures r.Ok? && r.value.Highpass? ==>
      && r.value.cutoff <= NormCeiling
      && (Normalised(filterHigh, fsOriginal) <= NormCeiling ==> r.value.cutoff == Normalised(filterHigh, fsOriginal))
      && (Normalised(filterHigh, fsOriginal) > NormCeiling ==> r.value.cutoff == NormCeiling)
  {
    if fsOriginal == 0.0 then Err(DivisionByZeroMessage)
    else
      var lowNorm := ClampNorm(Normalised(filterLow, fsOriginal));
      var highNorm := ClampNorm(Normalised(filterHigh, fsOriginal));
      if lowNorm < highNorm then Ok(Bandpass(FilterOrder, lowNorm, highNorm))
      else Ok(Highpass(FilterOrder, MinOf(Normalised(filterHigh, fsOriginal), NormCeiling)))
  }

  /**
   * With the default cutoffs 0.5 and 8.0 Hz and a positive rate, the
   * bandpass is designed exactly when 100/99 < fs < 1600 Hz: below, both
   * cutoffs clamp to 0.99; above, both clamp to 0.01.
   */
  lemma DefaultCutoffsBandpassRange(fs: real)
    requires fs > 0.0
    ensures DesignFilter(fs, 0.5, 8.0).Ok?
    ensures DesignFilter(fs, 0.5, 8.0).value.Bandpass? <==> 100.0 / 99.0 < fs < 1600.0
  {
    var lo, hi := Normalised(0.5, fs), Normalised(8.0, fs);
    assert lo * fs == 1.0;
    assert hi * fs == 16.0;
    assert hi == 16.0 * lo;
    if fs <= 100.0 / 99.0 {
      assert lo >= NormCeiling;
    } else if fs >= 1600.0 {
      assert hi <= NormFloor;
    } else {
      assert lo < NormCeiling;
      assert hi > NormFloor;
    }
  }

  /** Whether the two rates differ by more than 0.1 Hz. */
  predicate NeedsResample(fsOriginal: real, fsTarget: real)
  {
    Abs(fsOriginal - fsTarget) > ResampleTolerance
  }

  /** int(n * fs_target / fs_original); for rates of the same sign, the floor of the exact length. */
  function ResampleLength(n: nat, fsOriginal: real, fsTarget: real): (r: int)
    requires fsOriginal != 0.0
    ensures fsTarget / fsOriginal >= 0.0 ==>
      0 <= r && r as real <= n as real * fsTarget / fsOriginal < r as real + 1.0
  {
    assert n as real * fsTarget / fsOriginal == n as real * (fsTarget / fsOriginal);
    Trunc(n as real * fsTarget / fsOriginal)
  }

  /**
   * DC removal (when asked for), filter design and zero-phase filtering: a
   * zero rate fails on the Nyquist division; otherwise filtfilt runs the
   * designed filter over the centred (or untouched) waveform, whose length
   * the filter keeps.
   */
  function FilterStage(waveform: seq<real>, fsOriginal: real, filterLow: real, filterHigh: real,
                       removeDc: bool, lib: Library): (r: Result<seq<real>>)
    requires |waveform| > 0 && Sound(lib)
    ensures fsOriginal == 0.0 ==> r == Err(DivisionByZeroMessage)
    ensures fsOriginal != 0.0 && removeDc ==>
      r == lib.filtfilt(DesignFilter(fsOriginal, filterLow, filterHigh).value, RemoveDc(waveform))
    ensures fsOriginal != 0.0 && !removeDc ==>
      r == lib.filtfilt(DesignFilter(fsOriginal, filterLow, filterHigh).value, waveform)
    ensures r.Ok? ==> |r.value| == |waveform|
  {
    var centred := if removeDc then RemoveDc(waveform) else waveform;
    match DesignFilter(fsOriginal, filterLow, filterHigh)
    case Err(e) => Err(e)
    case Ok(design) => lib.filtfilt(design, centred)
  }

  /**
   * preprocess_ppg_signal: rejects fewer than 10 samples before anything
   * else, filters, then resamples only when the rates differ by more than
   * 0.1 Hz, reporting the rate of the signal it returns. The signal keeps
   * its length unless it is resampled, and then has the truncated length.
   * It succeeds whenever filtering and any resampling do, and an error past
   * the length guard is the error of one of those two steps.
   */
  function PreprocessPpg(waveform: seq<real>, fsOriginal: real, fsTarget: real, filterLow: real,
                         filterHigh: real, removeDc: bool, lib: Library): (r: Result<Preprocessed>)
    requires Sound(lib)
    ensures |waveform| < MinSamples ==> r == Err(TooShortMessage)
    ensures |waveform| >= MinSamples && fsOriginal == 0.0 ==> r == Err(DivisionByZeroMessage)
    ensures r.Ok? ==> |waveform| >= MinSamples && fsOriginal != 0.0
    ensures r.Ok? ==> r.value.rate == fsOriginal || r.value.rate == fsTarget
    ensures r.Ok? ==> Abs(r.value.rate - fsTarget) <= ResampleTolerance || r.value.rate == fsTarget
    ensures r.Ok? && !NeedsResample(fsOriginal, fsTarget) ==>
      && r.value.rate == fsOriginal
      && |r.value.signal| == |waveform|
      && Ok(r.value.signal) == FilterStage(waveform, fsOriginal, filterLow, filterHigh, removeDc, lib)
    ensures r.Ok? && NeedsResample(fsOriginal, fsTarget) ==>
      var filtered := FilterStage(waveform, fsOriginal, filterLow, filterHigh, removeDc, lib);
      && r.value.rate == fsTarget
      && filtered.Ok?
      && |r.value.signal| == ResampleLength(|waveform|, fsOriginal, fsTarget)
      && Ok(r.value.signal) == lib.resample(filtered.value, ResampleLength(|waveform|, fsOriginal, fsTarget))
    ensures |waveform| >= MinSamples ==>
      var filtered := FilterStage(waveform, fsOriginal, filterLow, filterHigh, removeDc, lib);
      filtered.Ok? &&
      (!NeedsResample(fsOriginal, fsTarget) ||
       lib.resample(filtered.value, ResampleLength(|waveform|, fsOriginal, fsTarget)).Ok?)
      ==> r.Ok?
    ensures |waveform| >= MinSamples && r.Err? ==>
      var filtered := FilterStage(waveform, fsOriginal, filterLow, filterHigh, removeDc, lib);
      || (filtered.Err? && r.message == filtered.message)
      || (&& filtered.Ok?
          && NeedsResample(fsOriginal, fsTarget)
          && lib.resample(filtered.value, ResampleLength(|waveform|, fsOriginal, fsTarget)).Err?
          && r.message == lib.resample(filtered.value, ResampleLength(|waveform|, fsOriginal, fsTarget)).message)
  {
    if |waveform| < MinSamples then Err(TooShortMessage)
    else
      match FilterStage(waveform, fsOriginal, filterLow, filterHigh, removeDc, lib)
      case Err(e) => Err(e)
      case Ok(filtered) =>
        if NeedsResample(fsOriginal, fsTarget) then
          match lib.resample(filtered, ResampleLength(|filtered|, fsOriginal, fsTarget))
          case Err(e) => Err(e)
          case Ok(resampled) => Ok(Preprocessed(resampled, fsTarget))
        else
          Ok(Preprocessed(filtered, fsOriginal))
  }

  /**
   * Min-max normalisation. numpy refuses the minimum of an empty array. When
   * the range exceeds 1e-10 the samples are mapped order-preservingly onto
   * [0, 1] with the minimum at 0 and the maximum at 1; otherwise only the
   * minimum is subtracted, leaving values in [0, 1e-10].
   */
  function MinMaxNormalize(signal: seq<real>): (r: Result<seq<real>>)
    ensures r.Err? <==> |signal| == 0
    ensures r.Err? ==> r.message == EmptyMinimumMessage
    ensures r.Ok? ==> |r.value| == |signal|
    ensures r.Ok? && Max(signal) - Min(signal) > Degenerate ==>
      && (forall i :: 0 <= i < |signal| ==> 0.0 <= r.value[i] <= 1.0)
      && (forall i :: 0 <= i < |signal| && signal[i] == Min(signal) ==> r.value[i] == 0.0)
      && (forall i :: 0 <= i < |signal| && signal[i] == Max(signal) ==> r.value[i] == 1.0)
      && (forall i, j :: 0 <= i < |signal| && 0 <= j < |signal| && signal[i] <= signal[j] ==> r.value[i] <= r.value[j])
    ensures r.Ok? && Max(signal) - Min(signal) <= Degenerate ==>
      forall i :: 0 <= i < |signal| ==> r.value[i] == signal[i] - Min(signal) && 0.0 <= r.value[i] <= Degenerate
  {
    if |signal| == 0 then Err(EmptyMinimumMessage)
    else
      var lo, hi := Min(signal), Max(signal);
      if hi - lo > Degenerate then
        var scaled := Scale(Shift(signal, lo), hi - lo);
        MinMaxScaled(signal, lo, hi, scaled);
        Ok(scaled)
      else
        Ok(Shift(signal, lo))
  }

  lemma MinMaxScaled(signal: seq<real>, lo: real, hi: real, out: seq<real>)
    requires forall i :: 0 <= i < |signal| ==> lo <= signal[i] <= hi
    requires lo < hi
    requires |out| == |signal| && forall i :: 0 <= i < |out| ==> out[i] == (signal[i] - lo) / (hi - lo)
    ensures forall i :: 0 <= i < |out| ==> 0.0 <= out[i] <= 1.0
    ensures forall i :: 0 <= i < |out| && signal[i] == lo ==> out[i] == 0.0
    ensures forall i :: 0 <= i < |out| && signal[i] == hi ==> out[i] == 1.0
    ensures forall i, j :: 0 <= i < |out| && 0 <= j < |out| && signal[i] <= signal[j] ==> out[i] <= out[j]
  {
    forall i | 0 <= i < |out|
      ensures 0.0 <= out[i] <= 1.0
      ensures signal[i] == lo ==> out[i] == 0.0
      ensures signal[i] == hi ==> out[i] == 1.0
    {
      ScaledSample(signal[i], lo, hi);
    }
    forall i, j | 0 <= i < |out| && 0 <= j < |out| && signal[i] <= signal[j]
      ensures out[i] <= out[j]
    {
      ScaledOrder(signal[i], signal[j], lo, hi);
    }
  }

  /** (x - lo) / (hi - lo) for x in [lo, hi]: in [0, 1], 0 at lo and 1 at hi. */
  lemma ScaledSample(x: real, lo: real, hi: real)
    requires lo <= x <= hi && lo < hi
    ensures 0.0 <= (x - lo) / (hi - lo) <= 1.0
    ensures x == lo ==> (x - lo) / (hi - lo) == 0.0
    ensures x == hi ==> (x - lo) / (hi - lo) == 1.0
  {
    var d, q := hi - lo, (x - lo) / (hi - lo);
    assert q * d == x - lo;
  }

  /** (x - lo) / (hi - lo) is monotone in x. */
  lemma ScaledOrder(x: real, y: real, lo: real, hi: real)
    requires x <= y && lo < hi
    ensures (x - lo) / (hi - lo) <= (y - lo) / (hi - lo)
  {
    var d := hi - lo;
    var p, q := (x - lo) / d, (y - lo) / d;
    assert p * d == x - lo && q * d == y - lo;
    assert (q - p) * d == y - x;
  }

  /**
   * Z-score normalisation with np.std: subtract the mean, and divide by the
   * standard deviation only when it exceeds 1e-10. An empty signal stays
   * empty. The result always has mean zero; every difference between two
   * samples is divided by the standard deviation, or kept in the
   * degenerate case.
   */
  function ZScore(signal: seq<real>, lib: Library): (r: seq<real>)
    requires Sound(lib)
    ensures |r| == |signal|
    ensures |signal| > 0 ==> Mean(r) == 0.0
    ensures |signal| > 0 && Std(signal, lib) > Degenerate ==>
      forall i, j :: 0 <= i < |r| && 0 <= j < |r| ==> r[i] - r[j] == (signal[i] - signal[j]) / Std(signal, lib)
    ensures |signal| > 0 && Std(signal, lib) <= Degenerate ==>
      forall i, j :: 0 <= i < |r| && 0 <= j < |r| ==> r[i] - r[j] == signal[i] - signal[j]
  {
    if |signal| == 0 then []
    else
      var m, std := Mean(signal), Std(signal, lib);
      MeanOfCentred(signal);
      if std > Degenerate then
        var centred := Shift(signal, m);
        MeanScale(centred, std);
        assert forall i, j :: 0 <= i < |signal| && 0 <= j < |signal| ==>
          centred[i] / std - centred[j] / std == (signal[i] - signal[j]) / std by {
          forall i, j | 0 <= i < |signal| && 0 <= j < |signal|
            ensures centred[i] / std - centred[j] / std == (signal[i] - signal[j]) / std
          {
            DivSub(centred[i], centred[j], std);
          }
        }
        Scale(centred, std)
      else
        Shift(signal, m)
  }

  /** When the standard deviation exceeds 1e-10, the z-scores have variance exactly one. */
  lemma ZScoreUnitVariance(signal: seq<real>, lib: Library)
    requires |signal| > 0 && Sound(lib) && Std(signal, lib) > Degenerate
    ensures Variance(ZScore(signal, lib)) == 1.0
  {
    var std := Std(signal, lib);
    var centred := Shift(signal, Mean(signal));
    assert ZScore(signal, lib) == Scale(centred, std);
    VarianceShift(signal, Mean(signal));
    VarianceScale(centred, std);
    SquarePos(std);
    var sq := Square(std);
    assert Variance(centred) == sq;
    DivSelf(sq);
  }

  /** The z-scores of [0, 4]: mean 2, standard deviation 2, hence [-1, 1]. */
  lemma ZScoreOfTwoSamples(lib: Library)
    requires Sound(lib)
    ensures ZScore([0.0, 4.0], lib) == [-1.0, 1.0]
  {
    var signal := [0.0, 4.0];
    assert Sum(signal) == 4.0;
    assert Mean(signal) == 2.0;
    var centred := Shift(signal, 2.0);
    assert centred == [-2.0, 2.0];
    assert Square(-2.0) == 4.0 && Square(2.0) == 4.0;
    assert SumSquares([2.0]) == 4.0 + SumSquares([]);
    assert centred[1..] == [2.0];
    assert SumSquares(centred) == 8.0;
    assert Variance(signal) == 4.0;
    var std := Std(signal, lib);
    SqrtUnique(std, 2.0, 4.0);
    assert Scale(centred, std) == [-1.0, 1.0];
  }

  /** normalize_signal: dispatches on the method name ("minmax" by default); any other name is an error. */
  function NormalizeSignal(signal: seq<real>, lib: Library, methodName: string := DefaultMethod): (r: Result<seq<real>>)
    requires Sound(lib)
    ensures methodName == "minmax" ==> r == MinMaxNormalize(signal)
    ensures methodName == "zscore" ==> r == Ok(ZScore(signal, lib))
    ensures methodName != "minmax" && methodName != "zscore" ==> r == Err(UnknownMethodPrefix + methodName)
  {
    if methodName == "minmax" then MinMaxNormalize(signal)
    else if methodName == "zscore" then Ok(ZScore(signal, lib))
    else Err(UnknownMethodPrefix + methodName)
  }

  /**
   * detect_flatline: np.std(signal) < threshold (0.01 by default). The
   * standard deviation of an empty array is NaN, which compares false.
   * Equivalently, the variance is below the squared threshold.
   */
  function DetectFlatline(signal: seq<real>, lib: Library, threshold: real := FlatlineThreshold): (r: bool)
    requires Sound(lib)
    ensures r <==> |signal| > 0 && threshold > 0.0 && Variance(signal) < Square(threshold)
  {
    if |signal| == 0 then false
    else
      SqrtBelow(Std(signal, lib), Variance(signal), threshold);
      Std(signal, lib) < threshold
  }

  /** A constant, non-empty signal is flat for every positive threshold, and only then for all of them. */
  lemma ConstantSignalIsFlat(signal: seq<real>, lib: Library, threshold: real)
    requires |signal| > 0 && Sound(lib) && Constant(signal) && threshold > 0.0
    ensures DetectFlatline(signal, lib, threshold)
  {
    VarianceZeroIffConstant(signal);
    SquarePos(threshold);
  }

  /**
   * np.nonzero of the band mask (freqs >= lo) & (freqs <= hi), from bin
   * `start` on: the in-band bins, each once, in increasing order.
   */
  function BandBins(freqs: seq<real>, lo: real, hi: real, start: nat): (r: seq<nat>)
    requires start <= |freqs|
    decreases |freqs| - start
    ensures forall k :: 0 <= k < |r| ==> start <= r[k] < |freqs| && InBand(freqs[r[k]], lo, hi)
    ensures forall k, l :: 0 <= k < l < |r| ==> r[k] < r[l]
    ensures forall i :: start <= i < |freqs| && InBand(freqs[i], lo, hi) ==> i in r
  {
    if start == |freqs| then []
    else
      var rest := BandBins(freqs, lo, hi, start + 1);
      if InBand(freqs[start], lo, hi) then [start] + rest else rest
  }

  /** Two strictly increasing sequences with the same elements are equal. */
  lemma {:induction false} IncreasingSameElements(a: seq<nat>, b: seq<nat>)
    requires forall k, l :: 0 <= k < l < |a| ==> a[k] < a[l]
    requires forall k, l :: 0 <= k < l < |b| ==> b[k] < b[l]
    requires forall x :: x in a <==> x in b
    ensures a == b
  {
    assert |a| > 0 ==> a[0] in b;
    assert |b| > 0 ==> b[0] in a;
    if |a| > 0 && |b| > 0 {
      assert a[0] == b[0];
      forall x
        ensures x in a[1..] <==> x in b[1..]
      {
        if x in a[1..] {
          assert x in a && x != a[0];
        }
        if x in b[1..] {
          assert x in b && x != b[0];
        }
        if x in a && x != a[0] {
          var k :| 0 <= k < |a| && a[k] == x;
          assert a[1..][k - 1] == x;
        }
        if x in b && x != b[0] {
          var k :| 0 <= k < |b| && b[k] == x;
          assert b[1..][k - 1] == x;
        }
      }
      IncreasingSameElements(a[1..], b[1..]);
    }
  }

  /** The in-band bins in increasing order are determined by the mask: any such listing is BandBins. */
  lemma BandBinsUnique(freqs: seq<real>, lo: real, hi: real, bins: seq<nat>)
    requires forall k :: 0 <= k < |bins| ==> bins[k] < |freqs| && InBand(freqs[bins[k]], lo, hi)
    requires forall k, l :: 0 <= k < l < |bins| ==> bins[k] < bins[l]
    requires forall i :: 0 <= i < |freqs| && InBand(freqs[i], lo, hi) ==> i in bins
    ensures bins == BandBins(freqs, lo, hi, 0)
  {
    IncreasingSameElements(bins, BandBins(freqs, lo, hi, 0));
  }

  /**
   * psd[(freqs >= lo) & (freqs <= hi)]: the powers of the in-band bins, in
   * bin order and each once; empty exactly when no bin lies in the band.
   */
  function BandPowers(freqs: seq<real>, psd: seq<real>, lo: real, hi: real): (r: seq<real>)
    requires |freqs| == |psd|
    ensures |r| == |BandBins(freqs, lo, hi, 0)|
    ensures forall k :: 0 <= k < |r| ==> r[k] == psd[BandBins(freqs, lo, hi, 0)[k]]
    ensures |r| == 0 <==> forall i :: 0 <= i < |freqs| ==> !InBand(freqs[i], lo, hi)
    ensures forall i :: 0 <= i < |freqs| && InBand(freqs[i], lo, hi) ==> psd[i] in r
  {
    var bins := BandBins(freqs, lo, hi, 0);
    var r := seq(|bins|, k requires 0 <= k < |bins| => psd[bins[k]]);
    assert forall i :: 0 <= i < |freqs| && InBand(freqs[i], lo, hi) ==> psd[i] in r by {
      forall i | 0 <= i < |freqs| && InBand(freqs[i], lo, hi)
        ensures psd[i] in r
      {
        var k :| 0 <= k < |bins| && bins[k] == i;
        assert r[k] == psd[i];
      }
    }
    assert |bins| > 0 ==> InBand(freqs[bins[0]], lo, hi);
    r
  }

  /**
   * The SNR of a Welch spectrum: 10·log10 of the mean signal-band power
   * over the mean noise-band power, and exactly 0.0 when either band has
   * no bin or the noise power is not positive.
   */
  function SnrFromSpectrum(spectrum: Spectrum, log10: real -> real): (r: real)
    requires spectrum.Parallel()
    ensures (forall i :: 0 <= i < |spectrum.freqs| ==> !InBand(spectrum.freqs[i], SignalBandLow, SignalBandHigh))
      ==> r == 0.0
    ensures (forall i :: 0 <= i < |spectrum.freqs| ==> !InBand(spectrum.freqs[i], NoiseBandLow, NoiseBandHigh))
      ==> r == 0.0
    ensures
      var signal := BandPowers(spectrum.freqs, spectrum.psd, SignalBandLow, SignalBandHigh);
      var noise := BandPowers(spectrum.freqs, spectrum.psd, NoiseBandLow, NoiseBandHigh);
      |signal| > 0 && |noise| > 0 ==>
        r == if Mean(noise) > 0.0 then 10.0 * log10(Mean(signal) / Mean(noise)) else 0.0
  {
    var signal := BandPowers(spectrum.freqs, spectrum.psd, SignalBandLow, SignalBandHigh);
    var noise := BandPowers(spectrum.freqs, spectrum.psd, NoiseBandLow, NoiseBandHigh);
    if |signal| > 0 && |noise| > 0 && Mean(noise) > 0.0 then
      10.0 * log10(Mean(signal) / Mean(noise))
    else
      0.0
  }

  /** A bin at exactly 4.0 Hz is one of the bins of both masks, and its power counts in both bands. */
  lemma BoundaryBinInBothBands(spectrum: Spectrum, k: nat)
    requires spectrum.Parallel() && k < |spectrum.freqs| && spectrum.freqs[k] == 4.0
    ensures k in BandBins(spectrum.freqs, SignalBandLow, SignalBandHigh, 0)
    ensures k in BandBins(spectrum.freqs, NoiseBandLow, NoiseBandHigh, 0)
    ensures spectrum.psd[k] in BandPowers(spectrum.freqs, spectrum.psd, SignalBandLow, SignalBandHigh)
    ensures spectrum.psd[k] in BandPowers(spectrum.freqs, spectrum.psd, NoiseBandLow, NoiseBandHigh)
  {
  }

  /**
   * calculate_snr: the SNR of the Welch spectrum taken with segments of
   * min(len, int(fs * 4)) samples; 0.0 when a band has no bin or the noise
   * power is not positive, otherwise 10·log10 of the mean power ratio.
   */
  function CalculateSnr(signal: seq<real>, fs: real, lib: Library): (r: real)
    requires Sound(lib)
    ensures
      var spectrum := lib.welch(signal, fs, WelchSegmentLength(|signal|, fs));
      && ((forall i :: 0 <= i < |spectrum.freqs| ==> !InBand(spectrum.freqs[i], SignalBandLow, SignalBandHigh))
            ==> r == 0.0)
      && ((forall i :: 0 <= i < |spectrum.freqs| ==> !InBand(spectrum.freqs[i], NoiseBandLow, NoiseBandHigh))
            ==> r == 0.0)
      && (var signalPowers := BandPowers(spectrum.freqs, spectrum.psd, SignalBandLow, SignalBandHigh);
          var noisePowers := BandPowers(spectrum.freqs, spectrum.psd, NoiseBandLow, NoiseBandHigh);
          |signalPowers| > 0 && |noisePowers| > 0 ==>
            r == if Mean(noisePowers) > 0.0 then 10.0 * lib.log10(Mean(signalPowers) / Mean(noisePowers)) else 0.0)
  {
    SnrFromSpectrum(lib.welch(signal, fs, WelchSegmentLength(|signal|, fs)), lib.log10)
  }
}
