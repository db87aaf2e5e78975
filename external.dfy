/**
 * The numerical collaborators the PPG code calls but does not implement:
 * scipy's Butterworth design with zero-phase filtering, FFT resampling,
 * peak finding and Welch's power spectral density, numpy's square root, and
 * the embedding model. They are values of arrow type, so every property
 * proved about the pipeline holds whatever they compute, except for the
 * facts stated in Sound.
 */
module External {
  import opened Wrappers
  import Stats

  /** A Butterworth design handed to scipy.signal.butter, in Nyquist-normalised cutoffs. */
  datatype FilterDesign =
    | Bandpass(order: nat, low: real, high: real)
    | Highpass(order: nat, cutoff: real)

  /** The (freqs, psd) pair returned by scipy.signal.welch. */
  datatype Spectrum = Spectrum(freqs: seq<real>, psd: seq<real>)
  {
    /** Each frequency bin has its power. */
    predicate Parallel()
    {
      |freqs| == |psd|
    }
  }

  datatype Library = Library(
    /** butter(order, Wn, btype) followed by filtfilt; either may raise. */
    filtfilt: (FilterDesign, seq<real>) -> Result<seq<real>>,
    /** scipy.signal.resample(x, num); may raise. */
    resample: (seq<real>, int) -> Result<seq<real>>,
    /** scipy.signal.find_peaks(x, distance=d)[0]. */
    findPeaks: (seq<real>, int) -> seq<int>,
    /** scipy.signal.welch(x, fs, nperseg=n). */
    welch: (seq<real>, real, int) -> Spectrum,
    /** The embedding model's extract_embeddings(signal, fs); may raise. */
    embed: (seq<real>, real) -> Result<seq<real>>,
    /** The square root inside np.std. */
    sqrt: real -> real,
    /** np.log10 */
    log10: real -> real)

  /** A boolean band mask as `(freqs >= lo) & (freqs <= hi)`: both ends inclusive. */
  predicate InBand(f: real, lo: real, hi: real)
  {
    lo <= f <= hi
  }

  /** The `nperseg` both Welch calls pass: min(len(signal), int(fs * 4)). */
  function WelchSegmentLength(n: nat, fs: real): int
  {
    var window := Stats.Trunc(fs * 4.0);
    if n <= window then n else window
  }

  /** Peak indices in strictly increasing order. */
  predicate Increasing(peaks: seq<int>)
  {
    forall i, j :: 0 <= i < j < |peaks| ==> peaks[i] < peaks[j]
  }

  /** Peak indices as find_peaks reports them: in bounds and strictly increasing. */
  predicate PeakIndices(peaks: seq<int>, n: int)
  {
    && (forall i :: 0 <= i < |peaks| ==> 0 <= peaks[i] < n)
    && Increasing(peaks)
  }

  /**
   * The only facts about the collaborators that the model relies on:
   * zero-phase filtering keeps the length, resampling to `num` samples
   * yields `num` samples (a negative `num` cannot succeed), peak indices are
   * in bounds and increasing, a Welch spectrum pairs every frequency with a
   * power, and sqrt is the non-negative square root.
   */
  ghost predicate Sound(lib: Library)
  {
    && (forall d: FilterDesign, x: seq<real> ::
          lib.filtfilt(d, x).Ok? ==> |lib.filtfilt(d, x).value| == |x|)
    && (forall x: seq<real>, n: int ::
          lib.resample(x, n).Ok? ==> n >= 0 && |lib.resample(x, n).value| == n)
    && (forall x: seq<real>, d: int :: PeakIndices(lib.findPeaks(x, d), |x|))
    && (forall x: seq<real>, fs: real, n: int :: lib.welch(x, fs, n).Parallel())
    && (forall v: real :: v >= 0.0 ==> Stats.IsSqrt(lib.sqrt(v), v))
  }

  /** np.std of a non-empty array: the square root of the population variance. */
  function Std(s: seq<real>, lib: Library): (r: real)
    requires |s| > 0 && Sound(lib)
    ensures Stats.IsSqrt(r, Stats.Variance(s))
    ensures r == 0.0 <==> Stats.Constant(s)
  {
    Stats.VarianceZeroIffConstant(s);
    Stats.SqrtZeroIff(lib.sqrt(Stats.Variance(s)), Stats.Variance(s));
    lib.sqrt(Stats.Variance(s))
  }
}
