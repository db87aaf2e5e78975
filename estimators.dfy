/**
 * The traditional estimators of ml-service/main.py: heart rate and heart-rate
 * variability from find_peaks indices, respiratory rate from a Welch
 * spectrum, and signal quality from the variance of an embedding.
 */
module Estimators {
  import opened Wrappers
  import opened Stats
  import opened External

  /** Minimum peak spacing handed to find_peaks, in seconds. */
  const MinPeakSpacingSeconds: real := 0.4
  /** Physiological clip of the heart rate (BPM). */
  const HeartRateFloor: real := 40.0
  const HeartRateCeiling: real := 200.0
  /** Respiratory band (Hz), 9 to 24 breaths per minute. */
  const RespiratoryBandLow: real := 0.15
  const RespiratoryBandHigh: real := 0.4
  /** Embedding variance that earns full quality. */
  const QualityNormaliser: real := 10.0

  /** int(fs * 0.4): the `distance` passed to find_peaks. */
  function PeakDistance(fs: real): int
  {
    Trunc(fs * MinPeakSpacingSeconds)
  }

  /** find_peaks refuses a distance below one sample: the estimators need fs >= 2.5 Hz. */
  lemma PeakDistanceValid(fs: real)
    ensures PeakDistance(fs) >= 1 <==> fs >= 2.5
  {
  }

  /** The peak indices as sample positions. */
  function PeakPositions(peaks: seq<int>): seq<real>
  {
    seq(|peaks|, i requires 0 <= i < |peaks| => peaks[i] as real)
  }

  /** np.diff(peaks) / fs: the inter-peak intervals in seconds. */
  function Intervals(peaks: seq<int>, fs: real): seq<real>
    requires |peaks| > 0 && fs != 0.0
  {
    Scale(Diff(PeakPositions(peaks)), fs)
  }

  /** The intervals sum to (last - first) / fs. */
  lemma IntervalSum(peaks: seq<int>, fs: real)
    requires |peaks| >= 2 && fs != 0.0
    ensures |Intervals(peaks, fs)| == |peaks| - 1
    ensures Sum(Intervals(peaks, fs)) == (peaks[|peaks| - 1] - peaks[0]) as real / fs
  {
    var positions := PeakPositions(peaks);
    SumScale(Diff(positions), fs);
    SumDiff(positions);
    assert positions[|positions| - 1] - positions[0] == (peaks[|peaks| - 1] - peaks[0]) as real;
  }

  /**
   * The mean interval telescopes: the time from the first to the last peak,
   * (last - first) / fs, spread over the n - 1 gaps.
   */
  lemma {:induction false} MeanIntervalTelescopes(peaks: seq<int>, fs: real)
    requires |peaks| >= 2 && fs != 0.0
    ensures Mean(Intervals(peaks, fs)) ==
      ((peaks[|peaks| - 1] - peaks[0]) as real / fs) / (|peaks| - 1) as real
  {
    IntervalSum(peaks, fs);
  }

  /**
   * estimate_heart_rate_traditional: None below two peaks; otherwise
   * 60 / mean interval, clipped to [40, 200]. For increasing peaks the mean
   * interval telescopes, so the rate is 60·(n - 1)·fs / (last - first)
   * before clipping.
   */
  function EstimateHeartRate(peaks: seq<int>, fs: real): (r: Option<real>)
    requires fs >= 2.5 && Increasing(peaks)
    ensures r.None? <==> |peaks| < 2
    ensures r.Some? ==> HeartRateFloor <= r.value <= HeartRateCeiling
    ensures r.Some? ==>
      r.value == Clip(60.0 * (|peaks| - 1) as real * fs / (peaks[|peaks| - 1] - peaks[0]) as real,
                      HeartRateFloor, HeartRateCeiling)
  {
    if |peaks| < 2 then None
    else
      var span, gaps := (peaks[|peaks| - 1] - peaks[0]) as real, (|peaks| - 1) as real;
      HeartRateClosedForm(peaks, fs);
      Some(Clip(60.0 / Mean(Intervals(peaks, fs)), HeartRateFloor, HeartRateCeiling))
  }

  /** 60 over the mean interval, in closed form. */
  lemma HeartRateClosedForm(peaks: seq<int>, fs: real)
    requires |peaks| >= 2 && fs > 0.0 && Increasing(peaks)
    ensures Mean(Intervals(peaks, fs)) > 0.0
    ensures 60.0 / Mean(Intervals(peaks, fs)) ==
      60.0 * (|peaks| - 1) as real * fs / (peaks[|peaks| - 1] - peaks[0]) as real
  {
    var span, gaps := (peaks[|peaks| - 1] - peaks[0]) as real, (|peaks| - 1) as real;
    MeanIntervalTelescopes(peaks, fs);
    assert peaks[0] < peaks[|peaks| - 1];
    InvertQuotient(span, gaps, fs);
  }

  lemma InvertQuotient(span: real, gaps: real, fs: real)
    requires span > 0.0 && gaps > 0.0 && fs > 0.0
    ensures (span / fs) / gaps > 0.0
    ensures 60.0 / ((span / fs) / gaps) == 60.0 * gaps * fs / span
  {
    var t := span / fs;
    assert t * fs == span;
    var q := t / gaps;
    assert q * gaps == t;
    assert q * (gaps * fs) == span;
    var w := 60.0 / q;
    assert w * q == 60.0;
    assert w * span == 60.0 * (gaps * fs);
    assert 60.0 * gaps * fs == 60.0 * (gaps * fs);
  }

  /** np.diff(peaks) / fs * 1000: the intervals in milliseconds. */
  function IntervalsMs(peaks: seq<int>, fs: real): seq<real>
    requires |peaks| > 0 && fs != 0.0
  {
    var seconds := Intervals(peaks, fs);
    seq(|seconds|, i requires 0 <= i < |seconds| => seconds[i] * 1000.0)
  }

  /** Consecutive peaks are the same number of samples apart. */
  predicate EvenlySpaced(peaks: seq<int>)
    requires |peaks| >= 2
  {
    forall i :: 1 <= i < |peaks| ==> peaks[i] - peaks[i - 1] == peaks[1] - peaks[0]
  }

  /**
   * The square of estimate_hrv_traditional's result: None below three
   * peaks, otherwise the population variance of the intervals in ms², which
   * is zero exactly when the peaks are evenly spaced.
   */
  function HrvVariance(peaks: seq<int>, fs: real): (r: Option<real>)
    requires fs >= 2.5
    ensures r.None? <==> |peaks| < 3
    ensures r.Some? ==> r.value >= 0.0
    ensures r.Some? ==> (r.value == 0.0 <==> EvenlySpaced(peaks))
  {
    if |peaks| < 3 then None
    else
      var ms := IntervalsMs(peaks, fs);
      VarianceZeroIffConstant(ms);
      ConstantIntervalsIffEvenlySpaced(peaks, fs);
      Some(Variance(ms))
  }

  lemma ConstantIntervalsIffEvenlySpaced(peaks: seq<int>, fs: real)
    requires |peaks| >= 3 && fs != 0.0
    ensures Constant(IntervalsMs(peaks, fs)) <==> EvenlySpaced(peaks)
  {
    var ms := IntervalsMs(peaks, fs);
    forall i | 0 <= i < |ms|
      ensures ms[i] == (peaks[i + 1] - peaks[i]) as real / fs * 1000.0
    {
    }
    forall i | 0 <= i < |ms|
      ensures ms[i] == ms[0] <==> peaks[i + 1] - peaks[i] == peaks[1] - peaks[0]
    {
      ScaledEqual((peaks[i + 1] - peaks[i]) as real, (peaks[1] - peaks[0]) as real, fs);
    }
    if EvenlySpaced(peaks) {
      forall i | 0 <= i < |ms| ensures ms[i] == ms[0] {
        assert peaks[i + 1] - peaks[i] == peaks[1] - peaks[0];
      }
    }
    if Constant(ms) {
      forall i | 1 <= i < |peaks| ensures peaks[i] - peaks[i - 1] == peaks[1] - peaks[0] {
        assert ms[i - 1] == ms[0];
      }
    }
  }

  lemma ScaledEqual(a: real, b: real, fs: real)
    requires fs != 0.0
    ensures a / fs * 1000.0 == b / fs * 1000.0 <==> a == b
  {
    assert a / fs * fs == a;
    assert b / fs * fs == b;
  }

  /**
   * estimate_hrv_traditional: None below three peaks, otherwise np.std of
   * the intervals in ms: the square root of HrvVariance, zero exactly when
   * the peaks are evenly spaced.
   */
  function EstimateHrv(peaks: seq<int>, fs: real, lib: Library): (r: Option<real>)
    requires fs >= 2.5 && Sound(lib)
    ensures r.None? <==> |peaks| < 3
    ensures r.Some? ==> IsSqrt(r.value, HrvVariance(peaks, fs).value)
    ensures r.Some? ==> (r.value == 0.0 <==> EvenlySpaced(peaks))
  {
    if |peaks| < 3 then None
    else
      var ms := IntervalsMs(peaks, fs);
      ConstantIntervalsIffEvenlySpaced(peaks, fs);
      Some(Std(ms, lib))
  }

  /**
   * The first bin from `start` on with the largest power among the bins in
   * [lo, hi] (np.argmax over the masked spectrum), or None when no bin from
   * `start` on lies in the band.
   */
  function BandArgmaxFrom(spectrum: Spectrum, lo: real, hi: real, start: nat): (r: Option<nat>)
    requires spectrum.Parallel() && start <= |spectrum.freqs|
    decreases |spectrum.freqs| - start
    ensures r.None? <==> forall j :: start <= j < |spectrum.freqs| ==> !InBand(spectrum.freqs[j], lo, hi)
    ensures r.Some? ==> start <= r.value < |spectrum.freqs| && InBand(spectrum.freqs[r.value], lo, hi)
    ensures r.Some? ==> forall j :: start <= j < |spectrum.freqs| && InBand(spectrum.freqs[j], lo, hi) ==>
      spectrum.psd[j] <= spectrum.psd[r.value]
    ensures r.Some? ==> forall j :: start <= j < r.value && InBand(spectrum.freqs[j], lo, hi) ==>
      spectrum.psd[j] < spectrum.psd[r.value]
  {
    if start == |spectrum.freqs| then None
    else
      var rest := BandArgmaxFrom(spectrum, lo, hi, start + 1);
      if !InBand(spectrum.freqs[start], lo, hi) then rest
      else if rest.None? || spectrum.psd[start] >= spectrum.psd[rest.value] then Some(start)
      else rest
  }

  /** The bin estimate_respiratory_rate_traditional picks: the first strongest bin in [0.15, 0.4] Hz. */
  function RespiratoryBin(spectrum: Spectrum): Option<nat>
    requires spectrum.Parallel()
  {
    BandArgmaxFrom(spectrum, RespiratoryBandLow, RespiratoryBandHigh, 0)
  }

  /**
   * estimate_respiratory_rate_traditional: None when no bin lies in
   * [0.15, 0.4] Hz, otherwise 60 times the frequency of the first strongest
   * bin there, a rate between 9 and 24 breaths per minute.
   */
  function EstimateRespiratoryRate(spectrum: Spectrum): (r: Option<real>)
    requires spectrum.Parallel()
    ensures r.None? <==>
      forall j :: 0 <= j < |spectrum.freqs| ==> !InBand(spectrum.freqs[j], RespiratoryBandLow, RespiratoryBandHigh)
    ensures r.Some? ==> 9.0 <= r.value <= 24.0
    ensures r.Some? ==> r.value == 60.0 * spectrum.freqs[RespiratoryBin(spectrum).value]
  {
    match RespiratoryBin(spectrum)
    case None => None
    case Some(k) => Some(spectrum.freqs[k] * 60.0)
  }

  /**
   * calculate_signal_quality_from_embeddings: 0.0 for an empty embedding,
   * otherwise the variance over 10 capped at 1.0.
   */
  function SignalQuality(embedding: seq<real>): (r: real)
    ensures 0.0 <= r <= 1.0
    ensures |embedding| == 0 ==> r == 0.0
    ensures |embedding| > 0 && Variance(embedding) >= QualityNormaliser ==> r == 1.0
    ensures |embedding| > 0 && Variance(embedding) < QualityNormaliser ==> r == Variance(embedding) / QualityNormaliser
  {
    if |embedding| == 0 then 0.0
    else MinOf(Variance(embedding) / QualityNormaliser, 1.0)
  }

  /** A non-empty embedding scores zero exactly when all its components are equal. */
  lemma ZeroQualityIffFlatEmbedding(embedding: seq<real>)
    requires |embedding| > 0
    ensures SignalQuality(embedding) == 0.0 <==> Constant(embedding)
  {
    VarianceZeroIffConstant(embedding);
  }
}
