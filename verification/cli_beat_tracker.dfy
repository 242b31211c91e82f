/** The command-line tool's beat tracker: the same onset history, estimate buffer
    and median blend as the app's, but the tempo search runs on the raw onsets
    over lags 20 to 60 and converts a lag to tempo as `60 * 46.875 / lag`, and the
    phase anchor jumps to `now` whenever the phase wraps. */
module CliBeat {
  import opened Numeric
  import opened Beat

  const MinLag: nat := 20
  const MaxLag: nat := 60

  /** `60.0 * 46.875 / Double(lag)`. */
  function LagBpm(lag: int): real
    requires lag != 0
  {
    60.0 * 46.875 / lag as real
  }

  /** The tool's conversion is the app's lag-to-tempo conversion at 46.875 frames
      per second. */
  lemma LagBpmIsAppConversion(lag: int)
    requires lag != 0
    ensures LagBpm(lag) == BpmForLag(lag)
  {
    LagRange();
  }

  /** The fastest and slowest tempi the tool can estimate: lag 20 is 140.625 BPM and
      lag 60 is 46.875 BPM, so the search never reports 180 BPM and can report
      tempi below 60. */
  const SlowestCliEstimate: real := 46.875
  const FastestCliEstimate: real := 140.625

  ghost predicate InCliRange(bpm: real)
  {
    SlowestCliEstimate <= bpm <= FastestCliEstimate
  }

  lemma LagBpmInRange(lag: int)
    requires MinLag <= lag <= MaxLag
    ensures InCliRange(LagBpm(lag))
    ensures LagBpm(MinLag) == FastestCliEstimate && LagBpm(MaxLag) == SlowestCliEstimate
    ensures SlowestCliEstimate < MinBpm && FastestCliEstimate < MaxBpm
  {
    LagBpmIsAppConversion(lag);
    LagBpmIsAppConversion(MinLag);
    LagBpmIsAppConversion(MaxLag);
    BpmForLagAntitone(MinLag, lag);
    BpmForLagAntitone(lag, MaxLag);
  }

  /** The blended tempo of two in-range tempi stays in range. */
  lemma SmoothedInCliRange(current: real, median: real)
    requires current == 0.0 || InCliRange(current)
    requires InCliRange(median)
    ensures InCliRange(SmoothedBpm(current, median))
  {
    SmoothedBpmStep(current, median);
  }

  lemma PushedInCliRange(estimates: seq<real>, bpm: real)
    requires forall i :: 0 <= i < |estimates| ==> InCliRange(estimates[i])
    requires InCliRange(bpm)
    ensures var pushed := PushBounded(estimates, bpm, TempoHistorySize);
      (forall i :: 0 <= i < |pushed| ==> InCliRange(pushed[i])) && InCliRange(Median(pushed))
  {
    var pushed := PushBounded(estimates, bpm, TempoHistorySize);
    PushBoundedMembers(estimates, bpm, TempoHistorySize);
    forall i | 0 <= i < |pushed| ensures InCliRange(pushed[i]) {
      assert pushed[i] in pushed;
    }
    assert Median(pushed) in pushed;
  }

  /** On a wrap the tool moves the anchor to `now`: the phase it reports is the
      fraction of the beat already under way, but the next frame measures from 0
      again, so the beat grid slips by that fraction each time. */
  /** The two fields the tool's phase update writes. */
  datatype CliPhaseState = CliPhaseState(phase: real, anchor: real)

  /** The tool's phase update: the fractional beat since the anchor, and the anchor
      reset to `now` once a whole interval has passed. */
  function CliPhaseAfter(now: real, anchor: real, interval: real): (p: CliPhaseState)
    requires 0.0 < interval
    ensures anchor <= now ==> 0.0 <= p.phase < 1.0 && p.anchor <= now
  {
    var phase := Phase(now - anchor, interval);
    assert anchor <= now ==> 0.0 <= phase < 1.0 by {
      if anchor <= now {
        PhaseBounds(now - anchor, interval);
      }
    }
    CliPhaseState(phase, if now - anchor >= interval then now else anchor)
  }

  lemma ResetDropsFraction(now: real, lastBeatTime: real, interval: real)
    requires 0.0 < interval && interval <= now - lastBeatTime
    ensures 0.0 <= Phase(now - lastBeatTime, interval) < 1.0
    ensures Phase(now - now, interval) == 0.0
    ensures ReAnchored(now, lastBeatTime, interval) == now - Phase(now - lastBeatTime, interval) * interval
    ensures ReAnchored(now, lastBeatTime, interval) <= now
  {
    MulDivCancel(interval, interval);
    assert 1.0 <= (now - lastBeatTime) / interval by {
      DivMonotone(interval, now - lastBeatTime, interval);
    }
    PhaseBounds(now - lastBeatTime, interval);
    WrapIsContinuous(now, lastBeatTime, interval);
  }

  /** The tool's tempo state: the buffer within capacity and the tool's range, the
      tempo 0 exactly until the first estimate, and the interval matching it. */
  ghost predicate CliTempoValid(t: Tempo)
  {
    && |t.estimates| <= TempoHistorySize
    && (forall i :: 0 <= i < |t.estimates| ==> InCliRange(t.estimates[i]))
    && (t.bpm == 0.0 <==> t.estimates == [])
    && (t.bpm != 0.0 ==> InCliRange(t.bpm) && t.interval == BeatIntervalFor(t.bpm))
    && (t.bpm == 0.0 ==> t.interval == 0.5)
    && 0.0 <= t.confidence
  }

  /** The tempo after one search of the raw onset history over lags 20..60:
      unchanged without a positively correlated lag, otherwise the lag's tempo is
      recorded with its correlation. */
  ghost function CliTempoAfter(onsets: seq<real>, t: Tempo): (r: Tempo)
    requires CliTempoValid(t)
    ensures CliTempoValid(r)
    ensures r == t || (r.bpm != 0.0 && 0.0 < r.confidence && r.estimates != []
                       && InCliRange(r.estimates[|r.estimates| - 1]))
  {
    var best := BestLag(onsets, MinLag, MaxLag);
    BestLagProperties(onsets, MinLag, MaxLag);
    if best.0 == 0 then t
    else
      LagBpmInRange(best.0);
      CliRecorded(t, LagBpm(best.0), best.1)
  }

  /** An accepted estimate joins the last sixteen, the tempo is blended toward
      their median, the interval follows and the correlation is the confidence. */
  function CliRecorded(t: Tempo, bpm: real, correlation: real): (r: Tempo)
    requires CliTempoValid(t) && InCliRange(bpm) && 0.0 < correlation
    ensures CliTempoValid(r) && r.bpm != 0.0 && r.confidence == correlation
    ensures r.estimates != [] && r.estimates[|r.estimates| - 1] == bpm
  {
    var estimates := PushBounded(t.estimates, bpm, TempoHistorySize);
    PushedInCliRange(t.estimates, bpm);
    SmoothedInCliRange(t.bpm, Median(estimates));
    var smoothed := SmoothedBpm(t.bpm, Median(estimates));
    Tempo(estimates, smoothed, BeatIntervalFor(smoothed), correlation)
  }

  class BeatTracker {
    var currentBPM: real
    var beatPhase: real
    var confidence: real
    var previousSpectrum: seq<real>
    var onsetHistory: seq<real>
    var tempoEstimates: seq<real>
    var lastBeatTime: real
    var beatInterval: real
    var frameCount: nat

    /** The buffers stay within capacity, every estimate comes from lags 20..60,
        the tempo is 0 exactly until the first estimate, and the beat interval
        matches the tempo (0.5 s before the first estimate). */
    ghost predicate Valid()
      reads this
    {
      && |onsetHistory| <= OnsetHistorySize
      && CliTempoValid(TempoOf())
    }

    /** The tracker's tempo state as one value. */
    ghost function TempoOf(): Tempo
      reads this
    {
      Tempo(tempoEstimates, currentBPM, beatInterval, confidence)
    }

    /** The tracker's phase fields as one value. */
    ghost function PhaseOf(): CliPhaseState
      reads this
    {
      CliPhaseState(beatPhase, lastBeatTime)
    }

    lemma IntervalPositive()
      requires Valid()
      ensures 0.0 < beatInterval
    {
    }

    constructor (now: real)
      ensures Valid()
      ensures currentBPM == 0.0 && beatPhase == 0.0 && confidence == 0.0
      ensures previousSpectrum == [] && onsetHistory == [] && tempoEstimates == []
      ensures lastBeatTime == now && beatInterval == 0.5 && frameCount == 0
    {
      currentBPM, beatPhase, confidence := 0.0, 0.0, 0.0;
      previousSpectrum, onsetHistory, tempoEstimates := [], [], [];
      lastBeatTime, beatInterval, frameCount := now, 0.5, 0;
    }

    /** One frame: record its onset, remember the spectrum, count it, re-estimate the
        tempo on every eighth frame once the history holds more than 256 onsets,
        and update the phase. */
    method Process(spectrum: seq<real>, now: real)
      requires Valid()
      modifies this
      ensures Valid()
      ensures onsetHistory == PushBounded(old(onsetHistory), Onset(spectrum, old(previousSpectrum)), OnsetHistorySize)
      ensures previousSpectrum == spectrum && frameCount == old(frameCount) + 1
      ensures if TempoDue(frameCount, onsetHistory)
        then TempoOf() == CliTempoAfter(onsetHistory, old(TempoOf()))
        else TempoOf() == old(TempoOf())
      ensures 0.0 < beatInterval
      ensures PhaseOf() == CliPhaseAfter(now, old(lastBeatTime), beatInterval)
      ensures old(lastBeatTime) <= now ==> 0.0 <= beatPhase < 1.0 && lastBeatTime <= now
    {
      Advance(spectrum);
      ghost var advanced := TempoOf();
      UpdatePhase(now);
      assert TempoOf() == advanced;
      IntervalPositive();
    }

    /** The frame's onset and, on a tempo frame, the tempo search. */
    method Advance(spectrum: seq<real>)
      requires Valid()
      modifies this`onsetHistory, this`previousSpectrum, this`frameCount,
               this`tempoEstimates, this`currentBPM, this`beatInterval, this`confidence
      ensures Valid()
      ensures onsetHistory == PushBounded(old(onsetHistory), Onset(spectrum, old(previousSpectrum)), OnsetHistorySize)
      ensures previousSpectrum == spectrum && frameCount == old(frameCount) + 1
      ensures if TempoDue(frameCount, onsetHistory)
        then TempoOf() == CliTempoAfter(onsetHistory, old(TempoOf()))
        else TempoOf() == old(TempoOf())
    {
      var onset := ComputeOnset(spectrum);
      onsetHistory := PushBounded(onsetHistory, onset, OnsetHistorySize);
      previousSpectrum := spectrum;
      frameCount := frameCount + 1;
      if TempoDue(frameCount, onsetHistory) {
        EstimateTempo();
      }
    }

    /** Rectified spectral flux against the previous spectrum. */
    method ComputeOnset(spectrum: seq<real>) returns (onset: real)
      ensures onset == Onset(spectrum, previousSpectrum)
    {
      if previousSpectrum == [] {
        return 0.0;
      }
      var flux := 0.0;
      var count := MinInt(|spectrum|, |previousSpectrum|);
      var i := 0;
      while i < count
        invariant 0 <= i <= count
        invariant flux == FluxUpTo(spectrum, previousSpectrum, i)
      {
        var diff := spectrum[i] - previousSpectrum[i];
        if diff > 0.0 {
          flux := flux + diff;
        }
        i := i + 1;
      }
      onset := flux;
    }

    /** Searches the raw history over lags 20..60; a lag that correlates positively
        becomes an estimate. The caller only searches a history longer than every
        lag. */
    method EstimateTempo()
      requires Valid() && MaxLag < |onsetHistory|
      modifies this`tempoEstimates, this`currentBPM, this`beatInterval, this`confidence
      ensures Valid()
      ensures TempoOf() == CliTempoAfter(onsetHistory, old(TempoOf()))
    {
      var bestLag, bestCorrelation := SearchLags(onsetHistory, MinLag, MaxLag);
      BestLagProperties(onsetHistory, MinLag, MaxLag);
      var bestBpm := 0.0;
      if bestLag != 0 {
        LagBpmInRange(bestLag);
        bestBpm := LagBpm(bestLag);
      }
      if bestBpm > 0.0 {
        RecordEstimate(bestBpm, bestCorrelation);
      }
    }

    /** The estimate joins the last sixteen, the tempo moves toward their median,
        and the beat interval and the confidence follow. */
    method RecordEstimate(bpm: real, correlation: real)
      requires Valid() && InCliRange(bpm) && 0.0 < correlation
      modifies this`tempoEstimates, this`currentBPM, this`beatInterval, this`confidence
      ensures Valid()
      ensures TempoOf() == CliRecorded(old(TempoOf()), bpm, correlation)
    {
      var recorded := CliRecorded(Tempo(tempoEstimates, currentBPM, beatInterval, confidence), bpm, correlation);
      tempoEstimates, currentBPM := recorded.estimates, recorded.bpm;
      beatInterval, confidence := recorded.interval, recorded.confidence;
    }

    /** Phase from the time since the last beat; on a wrap the anchor becomes `now`. */
    method UpdatePhase(now: real)
      requires Valid()
      modifies this`beatPhase, this`lastBeatTime
      ensures Valid()
      ensures 0.0 < beatInterval && PhaseOf() == CliPhaseAfter(now, old(lastBeatTime), beatInterval)
      ensures beatPhase == Phase(now - old(lastBeatTime), beatInterval)
      ensures lastBeatTime == if now - old(lastBeatTime) >= beatInterval then now else old(lastBeatTime)
      ensures old(lastBeatTime) <= now ==> 0.0 <= beatPhase < 1.0 && lastBeatTime <= now
    {
      IntervalPositive();
      if beatInterval > 0.0 {
        var elapsed := now - lastBeatTime;
        if 0.0 <= elapsed {
          PhaseBounds(elapsed, beatInterval);
        }
        beatPhase := Phase(elapsed, beatInterval);
        if elapsed >= beatInterval {
          lastBeatTime := now;
        }
      }
    }
  }
}
