/** The macOS app's coordinator: it owns the transform, the beat tracker and the
    voice tracker, feeds every captured block through all three, and publishes the
    tempo, the phase, the confidence, the voices and the calibration state.
    Calibration ends by the clock: thirty seconds after capture started the voice
    tracker is finalised. Capture itself and the main-actor hand-off are not part
    of this model; the publication step runs right after the trackers. */
module Analyzer {
  import opened Numeric
  import FFT
  import Beat
  import Voices
  import VoicePeaks
  import VoiceRegions
  import VoiceTracking

  /** Seconds of calibration. */
  const CalibrationDuration: real := 30.0
  /** The rate the voice tracker is told the spectra come at. */
  const AssumedRate: real := 48000.0

  /** `min(1.0, elapsed / calibrationDuration)`. */
  function Progress(elapsed: real): (p: real)
    ensures p <= 1.0
    ensures 0.0 <= elapsed ==> 0.0 <= p
    ensures p == 1.0 <==> CalibrationDuration <= elapsed
  {
    Min(1.0, elapsed / CalibrationDuration)
  }

  class AudioAnalyzer {
    var bpm: real
    var beatPhase: real
    var bpmConfidence: real
    var voices: seq<Voices.Voice>
    var isCalibrating: bool
    var calibrationProgress: real
    var error: Option<string>

    var fftProcessor: FFT.FFTProcessor?
    var beatTracker: Beat.BeatTracker?
    var voiceTracker: VoiceTracking.VoiceTracker?
    var calibrationStartTime: Option<real>

    ghost var Repr: set<object>

    /** Every present component is valid and owned, the transform's buffers are its
        own, and every spectrum the voice tracker holds came from the transform. */
    ghost predicate Valid()
      reads this, Repr
    {
      && this in Repr
      && (fftProcessor != null ==>
            && fftProcessor in Repr && fftProcessor.Repr <= Repr && this !in fftProcessor.Repr
            && fftProcessor.Valid())
      && (beatTracker != null ==> beatTracker in Repr && beatTracker.Valid())
      && (voiceTracker != null ==>
            && voiceTracker in Repr && voiceTracker.Valid()
            && TransformHistory(voiceTracker.spectralHistory))
      && (fftProcessor != null && beatTracker != null ==> beatTracker !in fftProcessor.Repr)
      && (fftProcessor != null && voiceTracker != null ==> voiceTracker !in fftProcessor.Repr)
    }

    constructor ()
      ensures Valid() && fresh(Repr)
      ensures bpm == 0.0 && beatPhase == 0.0 && bpmConfidence == 0.0 && voices == []
      ensures isCalibrating && calibrationProgress == 0.0 && error == None
      ensures fftProcessor == null && beatTracker == null && voiceTracker == null && calibrationStartTime == None
    {
      bpm, beatPhase, bpmConfidence, voices := 0.0, 0.0, 0.0, [];
      isCalibrating, calibrationProgress, error := true, 0.0, None;
      fftProcessor, beatTracker, voiceTracker, calibrationStartTime := null, null, null, None;
      Repr := {this};
    }

    /** `start`: fresh components, then capture; when capture starts the clock of
        the calibration starts at `now`, otherwise its error is published. The
        platform's window coefficients are `hann`. */
    method Start(now: real, hann: seq<real>, captureError: Option<string>)
      requires |hann| == FFT.FftSize
      modifies this
      ensures unchanged(this`bpm, this`beatPhase, this`bpmConfidence, this`voices, this`isCalibrating, this`calibrationProgress)
      ensures fftProcessor != null && fresh(fftProcessor) && fftProcessor.window == hann
      ensures beatTracker != null && fresh(beatTracker) && beatTracker.currentBPM == 0.0
      ensures voiceTracker != null && fresh(voiceTracker) && voiceTracker.isCalibrating && voiceTracker.voices == []
      ensures captureError.None? ==> calibrationStartTime == Some(now) && error == old(error)
      ensures captureError.Some? ==> calibrationStartTime == old(calibrationStartTime) && error == captureError
      ensures Valid() && fresh(Repr - {this})
    {
      Install(now, hann);
      if captureError.None? {
        calibrationStartTime := Some(now);
      } else {
        error := captureError;
      }
    }

    /** The three components of `start`, freshly made. */
    method Install(now: real, hann: seq<real>)
      requires |hann| == FFT.FftSize
      modifies this`fftProcessor, this`beatTracker, this`voiceTracker, this`Repr
      ensures fftProcessor != null && fresh(fftProcessor) && fftProcessor.window == hann
      ensures beatTracker != null && fresh(beatTracker) && beatTracker.currentBPM == 0.0
      ensures voiceTracker != null && fresh(voiceTracker) && voiceTracker.isCalibrating && voiceTracker.voices == []
      ensures Valid() && fresh(Repr - {this})
    {
      var fft, beat, voice := NewComponents(now, hann);
      fftProcessor, beatTracker, voiceTracker := fft, beat, voice;
      Repr := {this} + fft.Repr + {beat, voice};
    }

    /** `processAudio`: without all three components nothing happens. Otherwise the
        block's spectrum goes to both trackers, the beat values and the voices are
        published, and while calibrating the progress follows the clock until, after
        thirty seconds, the voice tracker is finalised and calibration ends for
        good. */
    method ProcessAudio(samples: seq<real>, now: real, dft: (seq<real>, seq<real>) -> (seq<real>, seq<real>),
                        root: real -> real)
      requires Valid() && FFT.IsTransform(dft) && IsSqrt(root)
      modifies Repr
      ensures Valid() && Repr == old(Repr)
      ensures fftProcessor == old(fftProcessor) && beatTracker == old(beatTracker) && voiceTracker == old(voiceTracker)
      ensures calibrationStartTime == old(calibrationStartTime) && error == old(error)
      ensures (fftProcessor == null || beatTracker == null || voiceTracker == null) ==>
        && bpm == old(bpm) && beatPhase == old(beatPhase) && bpmConfidence == old(bpmConfidence)
        && voices == old(voices) && isCalibrating == old(isCalibrating) && calibrationProgress == old(calibrationProgress)
      ensures (fftProcessor != null && beatTracker != null && voiceTracker != null) ==>
        && bpm == beatTracker.currentBPM && beatPhase == beatTracker.beatPhase && bpmConfidence == beatTracker.confidence
        && voices == voiceTracker.voices
      ensures !old(isCalibrating) ==> !isCalibrating && calibrationProgress == old(calibrationProgress)
      ensures old(isCalibrating) && calibrationStartTime.None? ==>
        isCalibrating && calibrationProgress == old(calibrationProgress)
      ensures (fftProcessor != null && beatTracker != null && voiceTracker != null
               && old(isCalibrating) && calibrationStartTime.Some?) ==>
        && calibrationProgress == Progress(now - calibrationStartTime.value)
        && (isCalibrating <==> now - calibrationStartTime.value < CalibrationDuration)
        && (!isCalibrating ==> !voiceTracker.isCalibrating)
      ensures (fftProcessor != null && beatTracker != null && voiceTracker != null) ==>
        beatTracker.previousSpectrum ==
          FFT.Spectrum(dft(FFT.Windowed(FFT.Staged(old(fftProcessor.inputBuffer[..]), samples), fftProcessor.window),
                           FFT.Zeros(FFT.FftSize)), root)
      ensures (fftProcessor != null && beatTracker != null && voiceTracker != null && !old(voiceTracker.isCalibrating)) ==>
        voices == VoiceTracking.Evict(VoiceTracking.MatchedAll(old(voiceTracker.voices), beatTracker.previousSpectrum,
                                                               AssumedRate, now, root), now)
      ensures (fftProcessor != null && beatTracker != null && voiceTracker != null && old(voiceTracker.isCalibrating)
               && old(isCalibrating) && calibrationStartTime.Some? && !isCalibrating) ==>
        voices == Finalized(PushBounded(old(voiceTracker.spectralHistory), beatTracker.previousSpectrum, VoiceTracking.MaxHistorySize),
                            AssumedRate, old(voiceTracker.nextVoiceId), now)
      ensures (fftProcessor != null && beatTracker != null && voiceTracker != null && old(voiceTracker.isCalibrating)
               && isCalibrating) ==>
        voices == [] && voiceTracker.spectralHistory ==
          PushBounded(old(voiceTracker.spectralHistory), beatTracker.previousSpectrum, VoiceTracking.MaxHistorySize)
    {
      if fftProcessor == null || beatTracker == null || voiceTracker == null {
        return;
      }
      var spectrum := fftProcessor.Process(samples, dft, root);
      Frame(spectrum, now, root);
    }

    /** The block's spectrum through both trackers, then the publication step. */
    method Frame(spectrum: seq<real>, now: real, root: real -> real)
      requires beatTracker != null && voiceTracker != null && IsSqrt(root) && |spectrum| == FFT.BinCount
      requires beatTracker.Valid() && voiceTracker.Valid() && TransformHistory(voiceTracker.spectralHistory)
      modifies this`bpm, this`beatPhase, this`bpmConfidence, this`voices, this`isCalibrating, this`calibrationProgress,
               beatTracker, voiceTracker
      ensures beatTracker.Valid() && voiceTracker.Valid() && TransformHistory(voiceTracker.spectralHistory)
      ensures bpm == beatTracker.currentBPM && beatPhase == beatTracker.beatPhase && bpmConfidence == beatTracker.confidence
      ensures voices == voiceTracker.voices && beatTracker.previousSpectrum == spectrum
      ensures !old(isCalibrating) || calibrationStartTime.None? ==>
        isCalibrating == old(isCalibrating) && calibrationProgress == old(calibrationProgress)
      ensures old(isCalibrating) && calibrationStartTime.Some? ==>
        && calibrationProgress == Progress(now - calibrationStartTime.value)
        && (isCalibrating <==> now - calibrationStartTime.value < CalibrationDuration)
        && (!isCalibrating ==> !voiceTracker.isCalibrating)
      ensures !old(voiceTracker.isCalibrating) ==>
        voices == VoiceTracking.Evict(VoiceTracking.MatchedAll(old(voiceTracker.voices), spectrum, AssumedRate, now, root), now)
      ensures old(voiceTracker.isCalibrating) && old(isCalibrating) && calibrationStartTime.Some? && !isCalibrating ==>
        voices == Finalized(PushBounded(old(voiceTracker.spectralHistory), spectrum, VoiceTracking.MaxHistorySize),
                            AssumedRate, old(voiceTracker.nextVoiceId), now)
      ensures old(voiceTracker.isCalibrating) && isCalibrating ==>
        voices == [] && voiceTracker.spectralHistory ==
          PushBounded(old(voiceTracker.spectralHistory), spectrum, VoiceTracking.MaxHistorySize)
    {
      ghost var history, nextId := voiceTracker.spectralHistory, voiceTracker.nextVoiceId;
      ghost var calibrating, wasCalibrating := voiceTracker.isCalibrating, isCalibrating;
      Track(beatTracker, voiceTracker, spectrum, now, root);
      ghost var tracked := voiceTracker.spectralHistory;
      assert calibrating ==> tracked == PushBounded(history, spectrum, VoiceTracking.MaxHistorySize) && tracked != [];
      assert voiceTracker.nextVoiceId == nextId && voiceTracker.sampleRate == AssumedRate;
      Publish(now);
      if calibrating && wasCalibrating && calibrationStartTime.Some? && !isCalibrating {
        assert voices == Finalized(tracked, AssumedRate, nextId, now);
      }
    }

    /** The main-actor step: copy the beat values, advance the calibration, copy
        the voices. */
    method Publish(now: real)
      requires beatTracker != null && voiceTracker != null && voiceTracker.Valid()
      requires TransformHistory(voiceTracker.spectralHistory)
      modifies this`bpm, this`beatPhase, this`bpmConfidence, this`voices, this`isCalibrating, this`calibrationProgress, voiceTracker
      ensures voiceTracker.Valid() && TransformHistory(voiceTracker.spectralHistory)
      ensures bpm == beatTracker.currentBPM && beatPhase == beatTracker.beatPhase && bpmConfidence == beatTracker.confidence
      ensures voices == voiceTracker.voices
      ensures !old(isCalibrating) || calibrationStartTime.None? ==>
        isCalibrating == old(isCalibrating) && calibrationProgress == old(calibrationProgress) && unchanged(voiceTracker)
      ensures old(isCalibrating) && calibrationStartTime.Some? ==>
        && calibrationProgress == Progress(now - calibrationStartTime.value)
        && (isCalibrating <==> now - calibrationStartTime.value < CalibrationDuration)
        && (!isCalibrating ==> !voiceTracker.isCalibrating)
      ensures isCalibrating ==> unchanged(voiceTracker)
      ensures old(isCalibrating) && calibrationStartTime.Some? && !isCalibrating ==>
        && voiceTracker.spectralHistory == [] && voiceTracker.peakHistory == []
        && voiceTracker.sampleRate == old(voiceTracker.sampleRate)
        && (old(voiceTracker.spectralHistory) == [] ==>
              voiceTracker.voices == old(voiceTracker.voices) && voiceTracker.nextVoiceId == old(voiceTracker.nextVoiceId))
        && (old(voiceTracker.spectralHistory) != [] ==>
              && voiceTracker.voices == Finalized(old(voiceTracker.spectralHistory), old(voiceTracker.sampleRate),
                                                  old(voiceTracker.nextVoiceId), now)
              && voiceTracker.nextVoiceId == old(voiceTracker.nextVoiceId) + |voiceTracker.voices|)
    {
      bpm, beatPhase, bpmConfidence := beatTracker.currentBPM, beatTracker.beatPhase, beatTracker.confidence;
      AdvanceCalibration(now);
      voices := voiceTracker.voices;
    }

    /** While calibrating with the clock started, the progress follows the clock;
        after thirty seconds the voice tracker is finalised and calibration ends. */
    method AdvanceCalibration(now: real)
      requires voiceTracker != null && voiceTracker.Valid() && TransformHistory(voiceTracker.spectralHistory)
      modifies this`isCalibrating, this`calibrationProgress, voiceTracker
      ensures voiceTracker.Valid() && TransformHistory(voiceTracker.spectralHistory)
      ensures !old(isCalibrating) || calibrationStartTime.None? ==>
        isCalibrating == old(isCalibrating) && calibrationProgress == old(calibrationProgress) && unchanged(voiceTracker)
      ensures old(isCalibrating) && calibrationStartTime.Some? ==>
        && calibrationProgress == Progress(now - calibrationStartTime.value)
        && (isCalibrating <==> now - calibrationStartTime.value < CalibrationDuration)
        && (!isCalibrating ==> !voiceTracker.isCalibrating)
      ensures isCalibrating ==> unchanged(voiceTracker)
      ensures old(isCalibrating) && calibrationStartTime.Some? && !isCalibrating ==>
        && voiceTracker.spectralHistory == [] && voiceTracker.peakHistory == []
        && voiceTracker.sampleRate == old(voiceTracker.sampleRate)
        && (old(voiceTracker.spectralHistory) == [] ==>
              voiceTracker.voices == old(voiceTracker.voices) && voiceTracker.nextVoiceId == old(voiceTracker.nextVoiceId))
        && (old(voiceTracker.spectralHistory) != [] ==>
              && voiceTracker.voices == Finalized(old(voiceTracker.spectralHistory), old(voiceTracker.sampleRate),
                                                  old(voiceTracker.nextVoiceId), now)
              && voiceTracker.nextVoiceId == old(voiceTracker.nextVoiceId) + |voiceTracker.voices|)
    {
      if isCalibrating && calibrationStartTime.Some? {
        var elapsed := now - calibrationStartTime.value;
        calibrationProgress := Min(1.0, elapsed / CalibrationDuration);
        if elapsed >= CalibrationDuration {
          voiceTracker.FinalizeCalibration(now);
          isCalibrating := false;
        }
      }
    }
  }

  /** The voices finalising makes of a non-empty history: one per region of the
      mean spectrum, numbered from `firstId`. */
  function Finalized(history: seq<seq<real>>, sampleRate: real, firstId: nat, now: real): (voices: seq<Voices.Voice>)
    requires history != [] && TransformHistory(history)
    ensures |voices| <= VoicePeaks.MaxRegions
    ensures forall v :: v in voices ==> !v.isActive && v.energy == 0.0
  {
    VoiceRegions.VoiceRegionsProperties(ColumnMean(history, FFT.BinCount), sampleRate);
    VoiceTracking.VoicesFromProperties(VoiceRegions.VoiceRegionsOf(ColumnMean(history, FFT.BinCount), sampleRate), firstId, now);
    VoiceTracking.VoicesFrom(VoiceRegions.VoiceRegionsOf(ColumnMean(history, FFT.BinCount), sampleRate), firstId, now)
  }

  /** Every spectrum in a voice history has the transform's length. */
  ghost predicate TransformHistory(history: seq<seq<real>>)
  {
    forall k :: 0 <= k < |history| ==> |history[k]| == FFT.BinCount
  }

  /** Both trackers take the frame's spectrum. */
  method Track(beat: Beat.BeatTracker, voice: VoiceTracking.VoiceTracker, spectrum: seq<real>, now: real, root: real -> real)
    requires beat.Valid() && voice.Valid() && IsSqrt(root) && |spectrum| == FFT.BinCount
    requires TransformHistory(voice.spectralHistory)
    modifies beat, voice
    ensures beat.Valid() && voice.Valid()
    ensures TransformHistory(voice.spectralHistory)
    ensures 0.0 < beat.beatInterval
    ensures beat.onsetHistory ==
      PushBounded(old(beat.onsetHistory), Beat.Onset(spectrum, old(beat.previousSpectrum)), Beat.OnsetHistorySize)
    ensures beat.previousSpectrum == spectrum && beat.frameCount == old(beat.frameCount) + 1
    ensures if Beat.TempoDue(beat.frameCount, beat.onsetHistory)
      then beat.TempoOf() == Beat.TempoAfter(Beat.NormalizeOnsets(beat.onsetHistory, root), old(beat.TempoOf()))
      else beat.TempoOf() == old(beat.TempoOf())
    ensures beat.PhaseOf() == Beat.PhaseAfter(now, old(beat.lastBeatTime), beat.beatInterval)
    ensures voice.sampleRate == AssumedRate && voice.isCalibrating == old(voice.isCalibrating)
    ensures voice.nextVoiceId == old(voice.nextVoiceId)
    ensures old(voice.isCalibrating) ==>
      && voice.voices == old(voice.voices)
      && voice.spectralHistory == PushBounded(old(voice.spectralHistory), spectrum, VoiceTracking.MaxHistorySize)
      && voice.peakHistory ==
           PushBounded(old(voice.peakHistory), VoicePeaks.Peaks(spectrum, AssumedRate), VoiceTracking.MaxHistorySize)
    ensures !old(voice.isCalibrating) ==>
      && voice.spectralHistory == old(voice.spectralHistory) && voice.peakHistory == old(voice.peakHistory)
      && voice.voices == VoiceTracking.Evict(VoiceTracking.MatchedAll(old(voice.voices), spectrum, AssumedRate, now, root), now)
  {
    beat.Process(spectrum, now, root);
    ghost var history := voice.spectralHistory;
    voice.Process(spectrum, AssumedRate, now, root);
    KeepsTransformSpectra(history, spectrum, voice.spectralHistory, voice.isCalibrating);
  }

  method NewComponents(now: real, hann: seq<real>) returns (fft: FFT.FFTProcessor, beat: Beat.BeatTracker, voice: VoiceTracking.VoiceTracker)
    requires |hann| == FFT.FftSize
    ensures fresh(fft) && fresh(fft.Repr) && fresh(beat) && fresh(voice)
    ensures fft.Valid() && fft.window == hann
    ensures beat.Valid() && beat.currentBPM == 0.0
    ensures voice.Valid() && voice.isCalibrating && voice.voices == [] && voice.spectralHistory == []
    ensures beat !in fft.Repr && voice !in fft.Repr
  {
    fft := new FFT.FFTProcessor(hann);
    beat := new Beat.BeatTracker(now);
    voice := new VoiceTracking.VoiceTracker();
  }

  /** The voice tracker's history after a frame still holds only spectra of the
      transform's length. */
  lemma KeepsTransformSpectra(history: seq<seq<real>>, spectrum: seq<real>, after: seq<seq<real>>, calibrating: bool)
    requires TransformHistory(history)
    requires |spectrum| == FFT.BinCount
    requires after == history || after == PushBounded(history, spectrum, VoiceTracking.MaxHistorySize)
    ensures TransformHistory(after)
  {
    PushBoundedMembers(history, spectrum, VoiceTracking.MaxHistorySize);
    forall k | 0 <= k < |after| ensures |after[k]| == FFT.BinCount {
      assert after[k] in after;
      if after != history {
        assert after[k] in history || after[k] == spectrum;
      }
    }
  }
}
