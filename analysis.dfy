/**
 * analyze_ppg in ml-service/main.py, after its model-loaded check: the
 * 30-sample guard, preprocessing to 125 Hz, the embedding call, the
 * traditional estimates, and the response record with its confidence and
 * warning rules. An exception raised by preprocessing or by the embedding
 * call becomes a failure record.
 */
module Analysis {
  import opened Wrappers
  import opened Stats
  import opened External
  import Ppg
  import opened Estimators

  /** Fewest samples analyze_ppg accepts. */
  const MinAnalysisSamples: nat := 30
  /** The embedding model's sampling rate (Hz). */
  const TargetRate: real := 125.0
  /** Default cutoffs of preprocess_ppg_signal (Hz). */
  const DefaultFilterLow: real := 0.5
  const DefaultFilterHigh: real := 8.0
  const ConfidenceGain: real := 1.2
  /** Quality at or below this draws a warning. */
  const WarningThreshold: real := 0.7

  const LowQualityWarning := "Low signal quality detected"
  const InsufficientDataMessage := "Insufficient signal data (minimum 30 samples required)"
  const ProcessingErrorPrefix := "Processing error: "
  /**
   * What str() gives, on Python 3.10 or later, for the TypeError of calling
   * extract_embeddings without its rate (earlier versions omit the class name).
   */
  const MissingRateMessage := "PaPaGeiModel.extract_embeddings() missing 1 required positional argument: 'fs'"

  /** PPGAnalysisResponse */
  datatype Response = Response(
    success: bool,
    heartRate: Option<real>,
    heartRateVariability: Option<real>,
    respiratoryRate: Option<real>,
    signalQuality: real,
    confidence: Option<real>,
    embeddings: Option<seq<real>>,
    warnings: seq<string>,
    error: Option<string>)

  /** min(quality * 1.2, 1.0): never above one, never below a quality in [0, 1], and full from 5/6 on. */
  function Confidence(quality: real): (r: real)
    ensures r <= 1.0
    ensures 0.0 <= quality <= 1.0 ==> quality <= r
    ensures quality >= 0.0 ==> r >= 0.0
    ensures r == 1.0 <==> quality >= 5.0 / 6.0
  {
    MinOf(quality * ConfidenceGain, 1.0)
  }

  /** No warning exactly when the quality exceeds 0.7; otherwise the single low-quality warning. */
  function QualityWarnings(quality: real): (r: seq<string>)
    ensures r == [] <==> quality > WarningThreshold
    ensures r != [] ==> r == [LowQualityWarning]
  {
    if quality > WarningThreshold then [] else [LowQualityWarning]
  }

  /** A failure record: success false, quality 0.0, no estimates, the message as error. */
  function Failure(message: string): Response
  {
    Response(false, None, None, None, 0.0, None, None, [], Some(message))
  }

  /** The success record built from the estimates and the quality. */
  function SuccessResponse(heartRate: Option<real>, hrv: Option<real>, respiratoryRate: Option<real>,
                           quality: real): Response
  {
    Response(true, heartRate, hrv, respiratoryRate, quality, Some(Confidence(quality)), None,
             QualityWarnings(quality), None)
  }

  /** What every failure record satisfies. */
  predicate IsFailureRecord(r: Response)
  {
    && !r.success
    && r.signalQuality == 0.0
    && r.error.Some?
    && r.heartRate.None? && r.heartRateVariability.None? && r.respiratoryRate.None?
    && r.confidence.None? && r.embeddings.None? && r.warnings == []
  }

  /** What every success record satisfies. */
  predicate IsSuccessRecord(r: Response)
  {
    && r.success
    && r.error.None?
    && 0.0 <= r.signalQuality <= 1.0
    && r.confidence == Some(Confidence(r.signalQuality))
    && r.signalQuality <= r.confidence.value <= 1.0
    && r.embeddings.None?
    && r.warnings == QualityWarnings(r.signalQuality)
    && (r.heartRate.Some? ==> HeartRateFloor <= r.heartRate.value <= HeartRateCeiling)
    && (r.respiratoryRate.Some? ==> 9.0 <= r.respiratoryRate.value <= 24.0)
  }

  /** The preprocessing analyze_ppg asks for: 125 Hz, default cutoffs, DC removed. */
  function Preprocess(signal: seq<real>, frameRate: real, lib: Library): Result<Ppg.Preprocessed>
    requires Sound(lib)
  {
    Ppg.PreprocessPpg(signal, frameRate, TargetRate, DefaultFilterLow, DefaultFilterHigh, true, lib)
  }

  /**
   * The body of analyze_ppg with the embedding call as a parameter. Fewer
   * than 30 samples fail before preprocessing; an exception from
   * preprocessing or the embedding call fails with "Processing error: ";
   * otherwise the estimates run at the rate preprocessing reports.
   */
  function AnalyzeWith(signal: seq<real>, frameRate: real, lib: Library,
                       embedStep: (seq<real>, real) -> Result<seq<real>>): (r: Response)
    requires Sound(lib)
    ensures IsFailureRecord(r) || IsSuccessRecord(r)
    ensures |signal| < MinAnalysisSamples ==> r == Failure(InsufficientDataMessage)
    ensures |signal| >= MinAnalysisSamples && Preprocess(signal, frameRate, lib).Err? ==>
      r == Failure(ProcessingErrorPrefix + Preprocess(signal, frameRate, lib).message)
    ensures |signal| >= MinAnalysisSamples && Preprocess(signal, frameRate, lib).Ok? ==>
      var p := Preprocess(signal, frameRate, lib).value;
      && (embedStep(p.signal, p.rate).Err? ==>
            r == Failure(ProcessingErrorPrefix + embedStep(p.signal, p.rate).message))
      && (embedStep(p.signal, p.rate).Ok? ==>
            && p.rate >= 2.5
            && r.success
            && r.signalQuality == SignalQuality(embedStep(p.signal, p.rate).value)
            && r.heartRate == EstimateHeartRate(lib.findPeaks(p.signal, PeakDistance(p.rate)), p.rate)
            && r.heartRateVariability == EstimateHrv(lib.findPeaks(p.signal, PeakDistance(p.rate)), p.rate, lib)
            && r.respiratoryRate ==
                 EstimateRespiratoryRate(lib.welch(p.signal, p.rate, WelchSegmentLength(|p.signal|, p.rate))))
  {
    if |signal| < MinAnalysisSamples then Failure(InsufficientDataMessage)
    else
      match Preprocess(signal, frameRate, lib)
      case Err(e) => Failure(ProcessingErrorPrefix + e)
      case Ok(p) =>
        match embedStep(p.signal, p.rate)
        case Err(e) => Failure(ProcessingErrorPrefix + e)
        case Ok(embedding) =>
          assert p.rate >= TargetRate - Ppg.ResampleTolerance;
          var peaks := lib.findPeaks(p.signal, PeakDistance(p.rate));
          var spectrum := lib.welch(p.signal, p.rate, WelchSegmentLength(|p.signal|, p.rate));
          SuccessResponse(EstimateHeartRate(peaks, p.rate), EstimateHrv(peaks, p.rate, lib),
                          EstimateRespiratoryRate(spectrum), SignalQuality(embedding))
  }

  /** analyze_ppg as written: extract_embeddings is called without its rate and raises a TypeError. */
  function AnalyzeAsWritten(signal: seq<real>, frameRate: real, lib: Library): (r: Response)
    requires Sound(lib)
    ensures IsFailureRecord(r)
  {
    AnalyzeWith(signal, frameRate, lib, (s: seq<real>, fs: real) => Err(MissingRateMessage))
  }

  /** As written, every signal that survives preprocessing fails with the TypeError's message. */
  lemma AsWrittenAlwaysFails(signal: seq<real>, frameRate: real, lib: Library)
    requires Sound(lib)
    requires |signal| >= MinAnalysisSamples && Preprocess(signal, frameRate, lib).Ok?
    ensures AnalyzeAsWritten(signal, frameRate, lib) == Failure(ProcessingErrorPrefix + MissingRateMessage)
  {
  }

  /** analyze_ppg with the processed signal's rate passed to extract_embeddings. */
  function Analyze(signal: seq<real>, frameRate: real, lib: Library): (r: Response)
    requires Sound(lib)
    ensures IsFailureRecord(r) || IsSuccessRecord(r)
    ensures |signal| < MinAnalysisSamples ==> r == Failure(InsufficientDataMessage)
  {
    AnalyzeWith(signal, frameRate, lib, lib.embed)
  }

  /** With the rate passed, a signal that preprocesses and embeds yields a success record. */
  lemma AnalyzeSucceedsWhenCollaboratorsDo(signal: seq<real>, frameRate: real, lib: Library)
    requires Sound(lib)
    requires |signal| >= MinAnalysisSamples && Preprocess(signal, frameRate, lib).Ok?
    requires lib.embed(Preprocess(signal, frameRate, lib).value.signal, Preprocess(signal, frameRate, lib).value.rate).Ok?
    ensures IsSuccessRecord(Analyze(signal, frameRate, lib))
    ensures Analyze(signal, frameRate, lib).signalQuality ==
      SignalQuality(lib.embed(Preprocess(signal, frameRate, lib).value.signal, Preprocess(signal, frameRate, lib).value.rate).value)
  {
  }
}
