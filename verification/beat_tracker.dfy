/** The macOS app's beat tracker: rectified spectral flux as onset strength, a
    512-entry onset history, an autocorrelation tempo search over a lag range
    derived from 60-180 BPM, a 16-entry estimate buffer smoothed through its
    median, and a beat phase re-anchored whenever it wraps. The wall clock is the
    `now` argument; the square root is the `root` argument. */
module Beat {
  import opened Numeric

  const OnsetHistorySize: nat := 512
  const TempoHistorySize: nat := 16
  const MinBpm: real := 60.0
  const MaxBpm: real := 180.0
  const SampleRate: real := 48000.0
  const HopSize: real := 1024.0
  /** Analysis frames per second at the fixed sample rate and hop size. */
  const FramesPerSecond: real := SampleRate / HopSize
  /** The tempo is re-estimated on every eighth frame ... */
  const TempoPeriod: nat := 8
  /** ... once the onset history holds more than this many entries. */
  const MinOnsetsForTempo: nat := 256
  /** Below this standard deviation the onset history is left unnormalised. */
  const StdFloor: real := 0.0001

  // ---------------------------------------------------------------------------
  // Onset strength

  function PositivePart(x: real): real { if x > 0.0 then x else 0.0 }

  /** Summed positive change over the first `n` bins. */
  function FluxUpTo(spectrum: seq<real>, previous: seq<real>, n: nat): (f: real)
    requires n <= |spectrum| && n <= |previous|
    ensures 0.0 <= f
  {
    if n == 0 then 0.0
    else FluxUpTo(spectrum, previous, n - 1) + PositivePart(spectrum[n - 1] - previous[n - 1])
  }

  /** A frame's onset strength: 0 with no previous spectrum, otherwise the rectified
      flux over the bins both spectra have. */
  function Onset(spectrum: seq<real>, previous: seq<real>): real
  {
    if previous == [] then 0.0 else FluxUpTo(spectrum, previous, MinInt(|spectrum|, |previous|))
  }

  /** The flux is positive exactly when some bin rose. */
  lemma {:induction false} FluxPositiveIffRise(spectrum: seq<real>, previous: seq<real>, n: nat)
    requires n <= |spectrum| && n <= |previous|
    ensures 0.0 < FluxUpTo(spectrum, previous, n) <==> exists i :: 0 <= i < n && previous[i] < spectrum[i]
  {
    if n > 0 {
      FluxPositiveIffRise(spectrum, previous, n - 1);
    }
  }

  /** The onset is never negative, is 0 on the first frame and 0 for a repeated
      spectrum, and is positive exactly when some shared bin rose. */
  lemma OnsetProperties(spectrum: seq<real>, previous: seq<real>)
    ensures 0.0 <= Onset(spectrum, previous)
    ensures previous == [] ==> Onset(spectrum, previous) == 0.0
    ensures Onset(spectrum, spectrum) == 0.0
    ensures 0.0 < Onset(spectrum, previous) <==>
      previous != [] && exists i :: 0 <= i < |spectrum| && i < |previous| && previous[i] < spectrum[i]
  {
    var n := MinInt(|spectrum|, |previous|);
    FluxPositiveIffRise(spectrum, previous, n);
    FluxPositiveIffRise(spectrum, spectrum, |spectrum|);
  }

  // ---------------------------------------------------------------------------
  // Onset normalisation

  function Mean(s: seq<real>): real
    requires |s| > 0
  {
    Sum(s) / |s| as real
  }

  /** Sum of squared deviations from `m`. */
  function SquaredDeviation(s: seq<real>, m: real): (v: real)
    ensures 0.0 <= v
  {
    if s == [] then 0.0
    else
      var x := s[|s| - 1] - m;
      SquareNonNegative(x);
      SquaredDeviation(s[..|s| - 1], m) + x * x
  }

  /** Every entry shifted by `m` and scaled by `1/d`. */
  function Standardized(s: seq<real>, m: real, d: real): (r: seq<real>)
    requires d != 0.0
    ensures |r| == |s|
  {
    seq(|s|, i requires 0 <= i < |s| => (s[i] - m) / d)
  }

  /** The standard deviation `sqrt(variance / n)` of a non-empty history. */
  function StdDev(onsets: seq<real>, root: real -> real): real
    requires |onsets| > 0
  {
    root(SquaredDeviation(onsets, Mean(onsets)) / |onsets| as real)
  }

  /** Z-score normalisation; an empty or nearly constant history is returned as is. */
  function NormalizeOnsets(onsets: seq<real>, root: real -> real): (r: seq<real>)
    ensures |r| == |onsets|
    ensures onsets == [] || StdDev(onsets, root) < StdFloor ==> r == onsets
  {
    if onsets == [] then []
    else
      var std := StdDev(onsets, root);
      if std < StdFloor then onsets else Standardized(onsets, Mean(onsets), std)
  }

  lemma {:induction false} SumStandardized(s: seq<real>, m: real, d: real)
    requires d != 0.0
    ensures Sum(Standardized(s, m, d)) * d == Sum(s) - |s| as real * m
  {
    if s != [] {
      var init := s[..|s| - 1];
      var x := s[|s| - 1] - m;
      SumStandardized(init, m, d);
      var r := Standardized(s, m, d);
      assert r[..|r| - 1] == Standardized(init, m, d);
      var a := Sum(Standardized(init, m, d));
      assert Sum(r) == a + x / d;
      MulDivCancel(x, d);
      assert (a + x / d) * d == a * d + x;
      assert (|init| as real + 1.0) * m == |init| as real * m + m;
    }
  }

  lemma {:induction false} SquaredDeviationStandardized(s: seq<real>, m: real, d: real)
    requires d != 0.0
    ensures SquaredDeviation(Standardized(s, m, d), 0.0) * (d * d) == SquaredDeviation(s, m)
  {
    if s != [] {
      var init := s[..|s| - 1];
      var x := s[|s| - 1] - m;
      SquaredDeviationStandardized(init, m, d);
      var r := Standardized(s, m, d);
      assert r[..|r| - 1] == Standardized(init, m, d);
      var a := SquaredDeviation(Standardized(init, m, d), 0.0);
      var y := x / d;
      assert SquaredDeviation(r, 0.0) == a + (y - 0.0) * (y - 0.0);
      MulDivCancel(x, d);
      ProductSquare(y, d, x);
      assert (a + y * y) * (d * d) == a * (d * d) + (y * y) * (d * d);
    }
  }

  lemma ScaledEquals(q: real, n: real, v: real, total: real)
    requires 0.0 < v && q * v == total && v * n == total
    ensures q == n
  {
    MulCancel(q, n, v);
  }

  lemma MeanTimesCount(s: seq<real>)
    requires |s| > 0
    ensures |s| as real * Mean(s) == Sum(s)
  {
    MulDivCancel(Sum(s), |s| as real);
  }

  /** When normalisation applies, the result has mean 0 ... */
  lemma NormalizedHasZeroMean(onsets: seq<real>, root: real -> real)
    requires |onsets| > 0 && StdFloor <= StdDev(onsets, root)
    ensures Sum(NormalizeOnsets(onsets, root)) == 0.0
  {
    var d := StdDev(onsets, root);
    assert NormalizeOnsets(onsets, root) == Standardized(onsets, Mean(onsets), d);
    StandardizedHasZeroSum(onsets, d);
  }

  /** Subtracting the mean leaves deviations that sum to 0, whatever the divisor. */
  lemma StandardizedHasZeroSum(s: seq<real>, d: real)
    requires |s| > 0 && d != 0.0
    ensures Sum(Standardized(s, Mean(s), d)) == 0.0
  {
    var total := Sum(Standardized(s, Mean(s), d));
    SumStandardized(s, Mean(s), d);
    MeanTimesCount(s);
    assert total * d == 0.0;
    ZeroProduct(total, d);
  }

  /** ... and mean square 1: its sum of squares equals its length. */
  lemma NormalizedHasUnitPower(onsets: seq<real>, root: real -> real)
    requires IsSqrt(root) && |onsets| > 0 && StdFloor <= StdDev(onsets, root)
    ensures SquaredDeviation(NormalizeOnsets(onsets, root), 0.0) == |onsets| as real
  {
    var n := |onsets| as real;
    var m := Mean(onsets);
    var total := SquaredDeviation(onsets, m);
    var d := StdDev(onsets, root);
    var r := NormalizeOnsets(onsets, root);
    assert r == Standardized(onsets, m, d);
    MulDivCancel(total, n);
    assert d * d == total / n;
    SquaredDeviationStandardized(onsets, m, d);
    SquarePositive(d);
    ScaledEquals(SquaredDeviation(r, 0.0), n, d * d, total);
  }

  // ---------------------------------------------------------------------------
  // Autocorrelation and the tempo search

  /** `sum of signal[i] * signal[i + lag]` over the first `n` positions. */
  function LagSum(signal: seq<real>, lag: nat, n: nat): real
    requires n + lag <= |signal|
  {
    if n == 0 then 0.0 else LagSum(signal, lag, n - 1) + signal[n - 1] * signal[n - 1 + lag]
  }

  /** The mean lagged product; 0 when the lag is not shorter than the signal. */
  function Autocorr(signal: seq<real>, lag: nat): real
  {
    if lag >= |signal| then 0.0
    else LagSum(signal, lag, |signal| - lag) / (|signal| - lag) as real
  }

  lemma {:induction false} LagSumAtZeroNonNegative(signal: seq<real>, n: nat)
    requires n <= |signal|
    ensures 0.0 <= LagSum(signal, 0, n)
  {
    if n > 0 {
      LagSumAtZeroNonNegative(signal, n - 1);
      assert 0.0 <= signal[n - 1] * signal[n - 1];
    }
  }

  /** At lag 0 the autocorrelation is the mean power, which is never negative. */
  lemma AutocorrAtZeroNonNegative(signal: seq<real>)
    ensures 0.0 <= Autocorr(signal, 0)
  {
    LagSumAtZeroNonNegative(signal, |signal|);
  }

  /** The lag of a tempo, truncated to whole frames. */
  function LagForBpm(bpm: real): int
    requires 0.0 < bpm
  {
    Trunc(FramesPerSecond / (bpm / 60.0))
  }

  /** The tempo of a lag. */
  function BpmForLag(lag: int): real
    requires lag != 0
  {
    FramesPerSecond / lag as real * 60.0
  }

  /** The searched lag range is 15..46: 180 BPM is 15.625 frames and 60 BPM is
      46.875 frames, both truncated. */
  lemma LagRange()
    ensures FramesPerSecond == 46.875
    ensures LagForBpm(MaxBpm) == 15 && LagForBpm(MinBpm) == 46
  {
    assert FramesPerSecond / (MaxBpm / 60.0) == 15.625;
    assert FramesPerSecond / (MinBpm / 60.0) == 46.875;
  }

  /** Truncating the shortest lag makes the fastest estimate 187.5 BPM, above the
      180 BPM ceiling; the slowest is above the 60 BPM floor. */
  lemma EstimateRangeExceedsBpmBounds()
    ensures BpmForLag(LagForBpm(MaxBpm)) == 187.5 && MaxBpm < 187.5
    ensures MinBpm < BpmForLag(LagForBpm(MinBpm))
  {
    LagRange();
  }

  /** Longer lags give slower tempi. */
  lemma BpmForLagAntitone(l1: int, l2: int)
    requires 0 < l1 <= l2
    ensures BpmForLag(l2) <= BpmForLag(l1)
  {
    DivAntitone(FramesPerSecond, l1 as real, l2 as real);
  }

  /** The tempi of lags 46 and 15: the slowest and fastest estimates. */
  const SlowestEstimate: real := 2812.5 / 46.0
  const FastestEstimate: real := 187.5

  lemma ExtremeEstimates()
    ensures BpmForLag(LagForBpm(MinBpm)) == SlowestEstimate && MinBpm < SlowestEstimate
    ensures BpmForLag(LagForBpm(MaxBpm)) == FastestEstimate
  {
    LagRange();
  }

  /** Every estimate the search can produce lies in [SlowestEstimate, FastestEstimate]. */
  ghost predicate InEstimateRange(bpm: real)
  {
    SlowestEstimate <= bpm <= FastestEstimate
  }

  lemma EstimateInRange(lag: int)
    requires LagForBpm(MaxBpm) <= lag <= LagForBpm(MinBpm)
    ensures InEstimateRange(BpmForLag(lag)) && 0.0 < BpmForLag(lag)
  {
    LagRange();
    ExtremeEstimates();
    BpmForLagAntitone(15, lag);
    BpmForLagAntitone(lag, 46);
  }

  /** `60 / bpm` seconds per beat. */
  function BeatIntervalFor(bpm: real): real
    requires bpm != 0.0
  {
    60.0 / bpm
  }

  lemma BeatIntervalPositive(bpm: real)
    requires 0.0 < bpm
    ensures 0.0 < BeatIntervalFor(bpm)
  {
  }

  /** In exact arithmetic a lag survives the round trip through its tempo. */
  lemma LagBpmRoundTrip(lag: int)
    requires 0 < lag
    ensures 0.0 < BpmForLag(lag) && LagForBpm(BpmForLag(lag)) == lag
  {
    LagRange();
    var f := FramesPerSecond;
    assert BpmForLag(lag) / 60.0 == f / lag as real;
    assert f / (f / lag as real) == lag as real;
  }

  /** The scan of lags `lag..hi`, keeping the first lag whose correlation strictly
      beats the best so far. */
  function Scan(signal: seq<real>, lag: int, hi: int, bestLag: int, bestCorr: real): (int, real)
    requires 0 < lag
    decreases hi - lag + 1
  {
    if lag > hi then (bestLag, bestCorr)
    else
      var c := Autocorr(signal, lag);
      if c > bestCorr then Scan(signal, lag + 1, hi, lag, c)
      else Scan(signal, lag + 1, hi, bestLag, bestCorr)
  }

  /** The search result: (0, 0) when no lag correlates positively. */
  function BestLag(signal: seq<real>, lo: int, hi: int): (int, real)
    requires 0 < lo
  {
    Scan(signal, lo, hi, 0, 0.0)
  }

  lemma {:induction false} ScanProperties(signal: seq<real>, lag: int, hi: int, bestLag: int, bestCorr: real)
    requires 0 < lag
    decreases hi - lag + 1
    ensures var r := Scan(signal, lag, hi, bestLag, bestCorr);
      && bestCorr <= r.1
      && (forall l :: lag <= l <= hi ==> Autocorr(signal, l) <= r.1)
      && (r == (bestLag, bestCorr) ||
          (lag <= r.0 <= hi && Autocorr(signal, r.0) == r.1 && bestCorr < r.1
           && forall l :: lag <= l < r.0 ==> Autocorr(signal, l) < r.1))
  {
    if lag <= hi {
      var c := Autocorr(signal, lag);
      if c > bestCorr {
        ScanProperties(signal, lag + 1, hi, lag, c);
      } else {
        ScanProperties(signal, lag + 1, hi, bestLag, bestCorr);
      }
    }
  }

  /** The search finds the first lag of greatest positive correlation in `lo..hi`,
      or reports lag 0 with correlation 0 when no lag correlates positively. */
  lemma BestLagProperties(signal: seq<real>, lo: int, hi: int)
    requires 0 < lo
    ensures var r := BestLag(signal, lo, hi);
      && 0.0 <= r.1
      && (forall l :: lo <= l <= hi ==> Autocorr(signal, l) <= r.1)
      && (r.0 == 0 <==> r.1 == 0.0)
      && (r.0 != 0 ==> lo <= r.0 <= hi && Autocorr(signal, r.0) == r.1
                       && forall l :: lo <= l < r.0 ==> Autocorr(signal, l) < r.1)
  {
    ScanProperties(signal, lo, hi, 0, 0.0);
  }

  /** `sorted[count / 2]` of a non-empty estimate buffer. */
  function Identity(x: real): real { x }

  function Median(s: seq<real>): (m: real)
    requires |s| > 0
    ensures m in s
  {
    SortByPermutes(s, Identity);
    SortByMembers(s, Identity);
    SortBy(s, Identity)[|s| / 2]
  }

  /** The median splits the buffer: `|s|/2` entries at or below it and the rest at or
      above it. */
  lemma MedianSplits(s: seq<real>) returns (lower: seq<real>, upper: seq<real>)
    requires |s| > 0
    ensures multiset(s) == multiset(lower + [Median(s)] + upper)
    ensures |lower| == |s| / 2
    ensures forall x :: x in lower ==> x <= Median(s)
    ensures forall x :: x in upper ==> Median(s) <= x
  {
    var t := SortBy(s, Identity);
    SortByPermutes(s, Identity);
    SortBySorted(s, Identity);
    var k := |s| / 2;
    lower, upper := t[..k], t[k + 1..];
    assert t == lower + [t[k]] + upper;
    forall x | x in lower ensures x <= Median(s) {
      var i :| 0 <= i < k && lower[i] == x;
      assert Identity(t[i]) <= Identity(t[k]);
    }
    forall x | x in upper ensures Median(s) <= x {
      var i :| 0 <= i < |upper| && upper[i] == x;
      assert Identity(t[k]) <= Identity(t[k + 1 + i]);
    }
  }

  /** First estimate taken as is, later ones blended 0.9/0.1. */
  function SmoothedBpm(current: real, median: real): real
  {
    if current == 0.0 then median else current * 0.9 + median * 0.1
  }

  /** A blended update closes a tenth of the gap to the median and stays between
      the two; the first update is the median itself. */
  lemma SmoothedBpmStep(current: real, median: real)
    ensures current == 0.0 ==> SmoothedBpm(current, median) == median
    ensures current != 0.0 ==>
      RealAbs(SmoothedBpm(current, median) - current) == 0.1 * RealAbs(median - current)
      && Min(current, median) <= SmoothedBpm(current, median) <= Max(current, median)
  {
    if current != 0.0 {
      assert SmoothedBpm(current, median) == Lerp(current, median, 0.1);
      LerpBetween(current, median, 0.1);
    }
  }

  /** Blending two tempi of the estimate range stays in the range, so the tempo
      never returns to 0 once it has an estimate. */
  lemma SmoothedInEstimateRange(current: real, median: real)
    requires current == 0.0 || InEstimateRange(current)
    requires InEstimateRange(median)
    ensures InEstimateRange(SmoothedBpm(current, median))
  {
    SmoothedBpmStep(current, median);
  }

  /** Pushing an estimate of the range keeps every buffered estimate, and so their
      median, in the range. */
  lemma PushedEstimatesInRange(estimates: seq<real>, bpm: real)
    requires forall i :: 0 <= i < |estimates| ==> InEstimateRange(estimates[i])
    requires InEstimateRange(bpm)
    ensures var pushed := PushBounded(estimates, bpm, TempoHistorySize);
      (forall i :: 0 <= i < |pushed| ==> InEstimateRange(pushed[i])) && InEstimateRange(Median(pushed))
  {
    var pushed := PushBounded(estimates, bpm, TempoHistorySize);
    PushBoundedMembers(estimates, bpm, TempoHistorySize);
    forall i | 0 <= i < |pushed| ensures InEstimateRange(pushed[i]) {
      assert pushed[i] in pushed;
    }
    assert Median(pushed) in pushed;
  }

  /** The tempo part of a tracker's state: the estimate buffer, the smoothed tempo,
      the beat interval and the confidence. */
  datatype Tempo = Tempo(estimates: seq<real>, bpm: real, interval: real, confidence: real)

  /** The buffer stays within capacity and in the estimate range, the tempo is 0
      exactly until the first estimate, and the interval matches the tempo (0.5 s
      before the first estimate). */
  ghost predicate TempoValid(t: Tempo)
  {
    && |t.estimates| <= TempoHistorySize
    && (forall i :: 0 <= i < |t.estimates| ==> InEstimateRange(t.estimates[i]))
    && (t.bpm == 0.0 <==> t.estimates == [])
    && (t.bpm != 0.0 ==> InEstimateRange(t.bpm) && t.interval == BeatIntervalFor(t.bpm))
    && (t.bpm == 0.0 ==> t.interval == 0.5)
    && 0.0 <= t.confidence
  }

  /** The interval of a valid tempo state is positive: 0.5 s before the first
      estimate, `60 / bpm` for an in-range tempo afterwards. */
  lemma TempoIntervalPositive(t: Tempo)
    requires TempoValid(t)
    ensures 0.0 < t.interval
  {
    if t.bpm != 0.0 {
      BeatIntervalPositive(t.bpm);
    }
  }

  /** The tempo after one search of the normalised history `onsets` over lags
      15..46: unchanged without a positively correlated lag; otherwise the lag's
      tempo joins the last sixteen estimates, the tempo is blended toward their
      median, the interval follows and the winning correlation is the confidence. */
  ghost function TempoAfter(onsets: seq<real>, t: Tempo): (r: Tempo)
    requires TempoValid(t)
    ensures TempoValid(r)
    ensures r == t || (r.bpm != 0.0 && 0.0 < r.confidence && r.estimates != []
                       && InEstimateRange(r.estimates[|r.estimates| - 1]))
  {
    LagRange();
    var best := BestLag(onsets, LagForBpm(MaxBpm), LagForBpm(MinBpm));
    BestLagProperties(onsets, LagForBpm(MaxBpm), LagForBpm(MinBpm));
    if best.0 == 0 then t
    else
      EstimateInRange(best.0);
      Recorded(t, BpmForLag(best.0), best.1)
  }

  /** An accepted estimate joins the last sixteen, the tempo is blended toward
      their median, the interval follows the tempo and the correlation becomes the
      confidence. */
  function Recorded(t: Tempo, bpm: real, correlation: real): (r: Tempo)
    requires TempoValid(t) && InEstimateRange(bpm) && 0.0 < correlation
    ensures TempoValid(r) && r.bpm != 0.0 && r.confidence == correlation
    ensures r.estimates != [] && r.estimates[|r.estimates| - 1] == bpm
  {
    var estimates := PushBounded(t.estimates, bpm, TempoHistorySize);
    PushedEstimatesInRange(t.estimates, bpm);
    SmoothedInEstimateRange(t.bpm, Median(estimates));
    var smoothed := SmoothedBpm(t.bpm, Median(estimates));
    Tempo(estimates, smoothed, BeatIntervalFor(smoothed), correlation)
  }

  /** The gate of `process`: the tempo search runs on every eighth frame once the
      onset history holds more than 256 entries. */
  predicate TempoDue(frameCount: nat, onsets: seq<real>)
  {
    frameCount % TempoPeriod == 0 && |onsets| > MinOnsetsForTempo
  }

  // ---------------------------------------------------------------------------
  // Beat phase

  /** `(elapsed / interval).truncatingRemainder(dividingBy: 1)`. */
  function Phase(elapsed: real, interval: real): real
    requires interval != 0.0
  {
    FracTowardZero(elapsed / interval)
  }

  /** The time left in the current beat. */
  function TimeToNext(phase: real, interval: real): real
  {
    (1.0 - phase) * interval
  }

  /** With time moving forward the phase lies in [0,1) and the time to the next
      beat in (0, interval]. */
  lemma PhaseBounds(elapsed: real, interval: real)
    requires 0.0 <= elapsed && 0.0 < interval
    ensures 0.0 <= Phase(elapsed, interval) < 1.0
    ensures 0.0 < TimeToNext(Phase(elapsed, interval), interval) <= interval
  {
    assert 0.0 <= elapsed / interval;
    var p := Phase(elapsed, interval);
    MulLess(0.0, 1.0 - p, interval);
  }

  /** The anchor after a wrap: `now` moved back by the phase already into the
      current beat. */
  function ReAnchored(now: real, lastBeatTime: real, interval: real): real
    requires interval != 0.0
  {
    now - Phase(now - lastBeatTime, interval) * interval
  }

  /** Re-anchoring on a wrap keeps the phase continuous at that instant, and moves
      the anchor forward by a whole number (at least one) of beat intervals. */
  lemma WrapIsContinuous(now: real, lastBeatTime: real, interval: real)
    requires 0.0 < interval && 1.0 <= (now - lastBeatTime) / interval
    ensures Phase(now - ReAnchored(now, lastBeatTime, interval), interval) == Phase(now - lastBeatTime, interval)
    ensures ReAnchored(now, lastBeatTime, interval) - lastBeatTime
         == Trunc((now - lastBeatTime) / interval) as real * interval
    ensures 1 <= Trunc((now - lastBeatTime) / interval)
    ensures lastBeatTime < ReAnchored(now, lastBeatTime, interval) <= now
  {
    var elapsed := now - lastBeatTime;
    var acc := elapsed / interval;
    var p := Phase(elapsed, interval);
    assert p == acc - Trunc(acc) as real;
    MulDivCancel(elapsed, interval);
    WholeBeats(acc, interval, elapsed);
    assert now - ReAnchored(now, lastBeatTime, interval) == p * interval;
    PhaseOfPhase(p, interval);
    MulMonotone(1.0, Trunc(acc) as real, interval);
    MulMonotone(0.0, p, interval);
  }

  /** The four fields `updatePhase` writes. */
  datatype PhaseState = PhaseState(phase: real, timeToNext: real, anchor: real, accumulator: real)

  /** `updatePhase` from the anchor and the interval: the phase is the fractional
      beat since the anchor; once a whole beat has passed, the anchor moves back to
      the start of the current beat and the accumulator restarts from the phase. */
  function PhaseAfter(now: real, anchor: real, interval: real): (p: PhaseState)
    requires 0.0 < interval
    ensures anchor <= now ==> 0.0 <= p.phase < 1.0 && 0.0 < p.timeToNext <= interval && p.anchor <= now
  {
    var phase := Phase(now - anchor, interval);
    assert anchor <= now ==> 0.0 <= phase < 1.0 && 0.0 < TimeToNext(phase, interval) <= interval by {
      if anchor <= now {
        PhaseBounds(now - anchor, interval);
      }
    }
    if (now - anchor) / interval >= 1.0 then
      WrapIsContinuous(now, anchor, interval);
      PhaseState(phase, TimeToNext(phase, interval), ReAnchored(now, anchor, interval), phase)
    else
      PhaseState(phase, TimeToNext(phase, interval), anchor, (now - anchor) / interval)
  }

  /** The elapsed time less the fraction of the current beat is a whole number of beats. */
  lemma WholeBeats(acc: real, interval: real, elapsed: real)
    requires acc * interval == elapsed
    ensures elapsed - (acc - Trunc(acc) as real) * interval == Trunc(acc) as real * interval
  {
  }

  /** A phase measured in time and converted back gives the phase itself. */
  lemma PhaseOfPhase(p: real, interval: real)
    requires 0.0 <= p < 1.0 && 0.0 < interval
    ensures Phase(p * interval, interval) == p
  {
    MulDivCancel(p, interval);
    assert Trunc(p) == 0;
  }

  // ---------------------------------------------------------------------------
  // The tracker

  class BeatTracker {
    var currentBPM: real
    var beatPhase: real
    var confidence: real
    var timeToNextBeat: real
    var previousSpectrum: seq<real>
    var onsetHistory: seq<real>
    var tempoEstimates: seq<real>
    var lastBeatTime: real
    var beatInterval: real
    var phaseAccumulator: real
    var frameCount: nat

    /** The buffers stay within capacity, every estimate comes from the searched
        lag range, the tempo is 0 exactly until the first estimate, and the beat
        interval always matches the tempo (0.5 s before the first estimate), so it is
        positive (`TempoIntervalPositive`). */
    ghost predicate Valid()
      reads this
    {
      && |onsetHistory| <= OnsetHistorySize
      && (forall i :: 0 <= i < |onsetHistory| ==> 0.0 <= onsetHistory[i])
      && TempoValid(TempoOf())
      && 0.0 < beatInterval
    }

    /** The tracker's tempo state as one value. */
    ghost function TempoOf(): Tempo
      reads this
    {
      Tempo(tempoEstimates, currentBPM, beatInterval, confidence)
    }

    /** The tracker's phase fields as one value. */
    ghost function PhaseOf(): PhaseState
      reads this
    {
      PhaseState(beatPhase, timeToNextBeat, lastBeatTime, phaseAccumulator)
    }

    constructor (now: real)
      ensures Valid()
      ensures currentBPM == 0.0 && beatPhase == 0.0 && confidence == 0.0 && timeToNextBeat == 0.0
      ensures previousSpectrum == [] && onsetHistory == [] && tempoEstimates == []
      ensures lastBeatTime == now && beatInterval == 0.5 && phaseAccumulator == 0.0 && frameCount == 0
    {
      currentBPM, beatPhase, confidence, timeToNextBeat := 0.0, 0.0, 0.0, 0.0;
      previousSpectrum, onsetHistory, tempoEstimates := [], [], [];
      lastBeatTime, beatInterval, phaseAccumulator, frameCount := now, 0.5, 0.0, 0;
    }

    /** One frame: record its onset, remember the spectrum, count it, re-estimate the
        tempo on every eighth frame once the history is long enough, and advance the
        phase. */
    method Process(spectrum: seq<real>, now: real, root: real -> real)
      requires Valid() && IsSqrt(root)
      modifies this
      ensures Valid()
      ensures onsetHistory == PushBounded(old(onsetHistory), Onset(spectrum, old(previousSpectrum)), OnsetHistorySize)
      ensures previousSpectrum == spectrum && frameCount == old(frameCount) + 1
      ensures if TempoDue(frameCount, onsetHistory)
        then TempoOf() == TempoAfter(NormalizeOnsets(onsetHistory, root), old(TempoOf()))
        else TempoOf() == old(TempoOf())
      ensures PhaseOf() == PhaseAfter(now, old(lastBeatTime), beatInterval)
      ensures old(lastBeatTime) <= now ==>
        0.0 <= beatPhase < 1.0 && 0.0 < timeToNextBeat <= beatInterval && lastBeatTime <= now
    {
      Advance(spectrum, root);
      ghost var advanced := TempoOf();
      UpdatePhase(now);
      assert TempoOf() == advanced;
    }

    /** The frame's onset and, on a tempo frame, the tempo search. */
    method Advance(spectrum: seq<real>, root: real -> real)
      requires Valid() && IsSqrt(root)
      modifies this`onsetHistory, this`previousSpectrum, this`frameCount,
               this`tempoEstimates, this`currentBPM, this`beatInterval, this`confidence
      ensures Valid()
      ensures onsetHistory == PushBounded(old(onsetHistory), Onset(spectrum, old(previousSpectrum)), OnsetHistorySize)
      ensures previousSpectrum == spectrum && frameCount == old(frameCount) + 1
      ensures if TempoDue(frameCount, onsetHistory)
        then TempoOf() == TempoAfter(NormalizeOnsets(onsetHistory, root), old(TempoOf()))
        else TempoOf() == old(TempoOf())
    {
      RecordOnset(spectrum);
      EstimateTempoWhenDue(root);
    }

    /** The gate of `process`: the tempo search runs on every eighth frame once the
        history holds more than 256 onsets. */
    method EstimateTempoWhenDue(root: real -> real)
      requires Valid() && IsSqrt(root)
      modifies this`tempoEstimates, this`currentBPM, this`beatInterval, this`confidence
      ensures Valid()
      ensures if TempoDue(frameCount, onsetHistory)
        then TempoOf() == TempoAfter(NormalizeOnsets(onsetHistory, root), old(TempoOf()))
        else TempoOf() == old(TempoOf())
    {
      if TempoDue(frameCount, onsetHistory) {
        EstimateTempo(root);
      }
    }

    /** Appends the frame's onset to the history, remembers the spectrum and counts
        the frame. */
    method RecordOnset(spectrum: seq<real>)
      requires Valid()
      modifies this`onsetHistory, this`previousSpectrum, this`frameCount
      ensures Valid()
      ensures onsetHistory == PushBounded(old(onsetHistory), Onset(spectrum, old(previousSpectrum)), OnsetHistorySize)
      ensures previousSpectrum == spectrum && frameCount == old(frameCount) + 1
    {
      var onset := ComputeOnset(spectrum);
      OnsetProperties(spectrum, previousSpectrum);
      ghost var before := onsetHistory;
      onsetHistory := PushBounded(onsetHistory, onset, OnsetHistorySize);
      PushBoundedMembers(before, onset, OnsetHistorySize);
      forall i | 0 <= i < |onsetHistory| ensures 0.0 <= onsetHistory[i] {
        assert onsetHistory[i] in onsetHistory;
      }
      previousSpectrum := spectrum;
      frameCount := frameCount + 1;
    }

    /** Rectified spectral flux against the previous spectrum. */
    method ComputeOnset(spectrum: seq<real>) returns (onset: real)
      ensures onset == Onset(spectrum, previousSpectrum)
    {
      if previousSpectrum == [] {
        return 0.0;
      }
      var flux := 0.0;
      var count := MinInt(|spectrum|, |previousSpectrum|);
      var i := 0;
      while i < count
        invariant 0 <= i <= count
        invariant flux == FluxUpTo(spectrum, previousSpectrum, i)
      {
        var diff := spectrum[i] - previousSpectrum[i];
        if diff > 0.0 {
          flux := flux + diff;
        }
        i := i + 1;
      }
      onset := flux;
    }

    /** Searches the normalised history for the best lag; on success records the
        lag's tempo as an estimate. */
    method EstimateTempo(root: real -> real)
      requires Valid() && IsSqrt(root)
      modifies this`tempoEstimates, this`currentBPM, this`beatInterval, this`confidence
      ensures Valid()
      ensures TempoOf() == TempoAfter(NormalizeOnsets(onsetHistory, root), old(TempoOf()))
    {
      var onsets := NormalizeOnsets(onsetHistory, root);
      var minLag := LagForBpm(MaxBpm);
      var maxLag := LagForBpm(MinBpm);
      LagRange();
      var bestLag, bestCorrelation := SearchLags(onsets, minLag, maxLag);
      BestLagProperties(onsets, minLag, maxLag);
      var bestBpm := 0.0;
      if bestLag != 0 {
        EstimateInRange(bestLag);
        bestBpm := BpmForLag(bestLag);
      }
      if bestBpm > 0.0 {
        RecordEstimate(bestBpm, bestCorrelation);
      }
    }

    /** Pushes an estimate into the buffer, blends the buffer's median into the
        tempo, derives the beat interval and takes the correlation as confidence. */
    method RecordEstimate(bestBpm: real, bestCorrelation: real)
      requires Valid() && InEstimateRange(bestBpm) && 0.0 < bestCorrelation
      modifies this`tempoEstimates, this`currentBPM, this`beatInterval, this`confidence
      ensures Valid()
      ensures TempoOf() == Recorded(old(TempoOf()), bestBpm, bestCorrelation)
    {
      var recorded := Recorded(Tempo(tempoEstimates, currentBPM, beatInterval, confidence), bestBpm, bestCorrelation);
      TempoIntervalPositive(recorded);
      tempoEstimates, currentBPM := recorded.estimates, recorded.bpm;
      beatInterval, confidence := recorded.interval, recorded.confidence;
    }

    /** Phase from the time since the last beat; on a wrap the anchor moves back
        to the start of the current beat. */
    method UpdatePhase(now: real)
      requires Valid()
      modifies this`beatPhase, this`timeToNextBeat, this`lastBeatTime, this`phaseAccumulator
      ensures Valid()
      ensures PhaseOf() == PhaseAfter(now, old(lastBeatTime), beatInterval)
      ensures beatPhase == Phase(now - old(lastBeatTime), beatInterval)
      ensures timeToNextBeat == TimeToNext(beatPhase, beatInterval)
      ensures if (now - old(lastBeatTime)) / beatInterval >= 1.0
        then lastBeatTime == ReAnchored(now, old(lastBeatTime), beatInterval) && phaseAccumulator == beatPhase
        else lastBeatTime == old(lastBeatTime) && phaseAccumulator == (now - old(lastBeatTime)) / beatInterval
      ensures old(lastBeatTime) <= now ==>
        0.0 <= beatPhase < 1.0 && 0.0 < timeToNextBeat <= beatInterval && lastBeatTime <= now
    {
      if beatInterval > 0.0 {
        var interval := beatInterval;
        var elapsed := now - lastBeatTime;
        var accumulated := elapsed / interval;
        var phase := Phase(elapsed, interval);
        var anchor := lastBeatTime;
        if accumulated >= 1.0 {
          WrapIsContinuous(now, lastBeatTime, interval);
          anchor := ReAnchored(now, lastBeatTime, interval);
          accumulated := phase;
        }
        if lastBeatTime <= now {
          PhaseBounds(elapsed, interval);
        }
        beatPhase, phaseAccumulator, lastBeatTime := phase, accumulated, anchor;
        timeToNextBeat := TimeToNext(phase, interval);
      }
    }

    /** The next `count` beat times, the first one `timeToNextBeat` from now and the
        rest exactly one beat interval apart. */
    method PredictBeatTimes(count: nat, now: real) returns (times: seq<real>)
      ensures |times| == count
      ensures forall i :: 0 <= i < count ==> times[i] == now + timeToNextBeat + i as real * beatInterval
      ensures 0 < count ==> times[0] == now + timeToNextBeat
      ensures forall i :: 0 <= i < count - 1 ==> times[i + 1] - times[i] == beatInterval
    {
      times := [];
      var i := 0;
      while i < count
        invariant 0 <= i <= count && |times| == i
        invariant forall k :: 0 <= k < i ==> times[k] == now + timeToNextBeat + k as real * beatInterval
      {
        times := times + [now + timeToNextBeat + i as real * beatInterval];
        i := i + 1;
      }
    }
  }

  /** The lag loop of the tempo search. */
  method SearchLags(signal: seq<real>, lo: int, hi: int) returns (bestLag: int, bestCorrelation: real)
    requires 0 < lo
    ensures (bestLag, bestCorrelation) == BestLag(signal, lo, hi)
  {
    bestLag, bestCorrelation := 0, 0.0;
    var lag := lo;
    while lag <= hi
      invariant lo <= lag
      invariant Scan(signal, lag, hi, bestLag, bestCorrelation) == BestLag(signal, lo, hi)
      decreases hi - lag + 1
    {
      var correlation := Autocorrelation(signal, lag);
      if correlation > bestCorrelation {
        bestCorrelation := correlation;
        bestLag := lag;
      }
      lag := lag + 1;
    }
  }

  /** The accumulating loop behind `Autocorr`. */
  method Autocorrelation(signal: seq<real>, lag: nat) returns (c: real)
    ensures c == Autocorr(signal, lag)
  {
    if lag >= |signal| {
      return 0.0;
    }
    var sum := 0.0;
    var n := |signal| - lag;
    var i := 0;
    while i < n
      invariant 0 <= i <= n
      invariant sum == LagSum(signal, lag, i)
    {
      sum := sum + signal[i] * signal[i + lag];
      i := i + 1;
    }
    c := sum / n as real;
  }
}
