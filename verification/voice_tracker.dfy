/** The calibrated voice tracker of the macOS app. While calibrating it keeps the
    recent spectra and their peaks in bounded histories; finalising turns the mean
    spectrum's voice regions into voices; afterwards each frame decides, per voice,
    whether it is active from the mean energy of its bins and the correlation of
    their shape with the voice's template, and voices silent for three minutes are
    dropped. The frame's time is a parameter, as is the square root. */
module VoiceTracking {
  import opened Numeric
  import opened Voices
  import opened VoicePeaks
  import opened VoiceRegions
  import FFT

  const MaxHistorySize: nat := 1024
  /** Seconds of inactivity after which a voice is dropped. */
  const VoiceTimeoutDuration: real := 180.0
  const ActiveThreshold: real := 0.15
  const MatchingThreshold: real := 0.7

  // ---------------------------------------------------------------------------
  // Names

  /** `nameForFrequency`: half-open bands; anything else, negative frequencies
      included, is "Ultra". */
  function NameForFrequency(freq: real): string
  {
    if 0.0 <= freq < 100.0 then "Sub"
    else if 100.0 <= freq < 250.0 then "Bass"
    else if 250.0 <= freq < 500.0 then "Low"
    else if 500.0 <= freq < 1000.0 then "Mid"
    else if 1000.0 <= freq < 2000.0 then "High"
    else if 2000.0 <= freq < 4000.0 then "Bright"
    else if 4000.0 <= freq < 8000.0 then "Air"
    else "Ultra"
  }

  /** The names from low to high. */
  const VoiceNames: seq<string> := ["Sub", "Bass", "Low", "Mid", "High", "Bright", "Air", "Ultra"]

  function NameRank(name: string): nat
  {
    if name == "Sub" then 0 else if name == "Bass" then 1 else if name == "Low" then 2
    else if name == "Mid" then 3 else if name == "High" then 4 else if name == "Bright" then 5
    else if name == "Air" then 6 else 7
  }

  /** Every name is one of the eight, and for non-negative frequencies a higher
      frequency never gets a lower band's name. */
  lemma NameForFrequencyOrdered(f1: real, f2: real)
    requires 0.0 <= f1 <= f2
    ensures NameForFrequency(f1) in VoiceNames && NameForFrequency(f2) in VoiceNames
    ensures NameRank(NameForFrequency(f1)) <= NameRank(NameForFrequency(f2))
    ensures VoiceNames[NameRank(NameForFrequency(f1))] == NameForFrequency(f1)
  {
  }

  // ---------------------------------------------------------------------------
  // Shape correlation

  /** `sum(a[i] * b[i])` over the first `n` entries. */
  function Dot(a: seq<real>, b: seq<real>, n: nat): real
    requires n <= |a| && n <= |b|
  {
    if n == 0 then 0.0 else Dot(a, b, n - 1) + a[n - 1] * b[n - 1]
  }

  lemma {:induction false} DotSelfNonNegative(a: seq<real>, n: nat)
    requires n <= |a|
    ensures 0.0 <= Dot(a, a, n)
  {
    if n > 0 {
      DotSelfNonNegative(a, n - 1);
      SquareNonNegative(a[n - 1]);
    }
  }

  /** The product of the squared norms of the first `n` entries. */
  function SquaredNorms(a: seq<real>, b: seq<real>, n: nat): real
    requires n <= |a| && n <= |b|
  {
    Dot(a, a, n) * Dot(b, b, n)
  }

  /** `correlate`: the cosine similarity of the common prefix, 0 when it is empty or
      has a zero norm. */
  function Correlation(a: seq<real>, b: seq<real>, root: real -> real): real
  {
    var n := MinInt(|a|, |b|);
    if n == 0 then 0.0
    else
      var denom := root(SquaredNorms(a, b, n));
      if denom > 0.0 then Dot(a, b, n) / denom else 0.0
  }

  /** An empty input, or one whose common prefix is all zeros, correlates to 0. */
  lemma CorrelationDegenerate(a: seq<real>, b: seq<real>, root: real -> real)
    requires IsSqrt(root)
    ensures MinInt(|a|, |b|) == 0 ==> Correlation(a, b, root) == 0.0
    ensures var n := MinInt(|a|, |b|);
      (Dot(a, a, n) == 0.0 || Dot(b, b, n) == 0.0) ==> Correlation(a, b, root) == 0.0
  {
    var n := MinInt(|a|, |b|);
    if n != 0 && (Dot(a, a, n) == 0.0 || Dot(b, b, n) == 0.0) {
      ZeroTimes(Dot(a, a, n), Dot(b, b, n));
      assert SquaredNorms(a, b, n) == 0.0;
      RootOfZero(root);
    }
  }

  lemma ZeroTimes(x: real, y: real)
    requires x == 0.0 || y == 0.0
    ensures x * y == 0.0
  {
    if x == 0.0 {
      assert x * y == 0.0 * y;
    } else {
      assert x * y == x * 0.0;
    }
  }

  lemma RootOfZero(root: real -> real)
    requires IsSqrt(root)
    ensures root(0.0) == 0.0
  {
    var r := root(0.0);
    ZeroFactor(r, r);
  }

  /** The accumulating loop of `correlate`. */
  method Correlate(a: seq<real>, b: seq<real>, root: real -> real) returns (c: real)
    ensures c == Correlation(a, b, root)
  {
    var n := MinInt(|a|, |b|);
    if n == 0 {
      return 0.0;
    }
    var sum, sumA, sumB := 0.0, 0.0, 0.0;
    var i := 0;
    while i < n
      invariant 0 <= i <= n
      invariant sum == Dot(a, b, i) && sumA == Dot(a, a, i) && sumB == Dot(b, b, i)
    {
      sum := sum + a[i] * b[i];
      sumA := sumA + a[i] * a[i];
      sumB := sumB + b[i] * b[i];
      i := i + 1;
    }
    var norms := sumA * sumB;
    assert norms == SquaredNorms(a, b, n);
    var denom := root(norms);
    c := if denom > 0.0 then sum / denom else 0.0;
  }

  // ---------------------------------------------------------------------------
  // Matching one voice

  /** The bin range is usable: at least two bins, inside the spectrum. */
  predicate UsableRange(lowBin: int, highBin: int, binCount: int)
  {
    highBin > lowBin && lowBin >= 0 && highBin < binCount
  }

  /** The summing loop over `lowBin...highBin`. */
  method SumRange(spectrum: seq<real>, lowBin: int, highBin: int) returns (total: real)
    requires 0 <= lowBin <= highBin < |spectrum|
    ensures total == Sum(spectrum[lowBin..highBin + 1])
  {
    total := 0.0;
    var bin := lowBin;
    while bin <= highBin
      invariant lowBin <= bin <= highBin + 1
      invariant total == Sum(spectrum[lowBin..bin])
    {
      assert spectrum[lowBin..bin + 1][..bin - lowBin] == spectrum[lowBin..bin];
      total := total + spectrum[bin];
      bin := bin + 1;
    }
  }

  /** Mean magnitude over `lowBin...highBin`. */
  function RangeEnergy(spectrum: seq<real>, lowBin: int, highBin: int): real
    requires 0 <= lowBin <= highBin < |spectrum|
  {
    Sum(spectrum[lowBin..highBin + 1]) / (highBin - lowBin + 1) as real
  }

  /** Correlation of the range's normalised shape with the template, or 0 without
      a template. */
  function ShapeMatch(spectrum: seq<real>, lowBin: int, highBin: int, template: seq<real>, root: real -> real): real
    requires 0 <= lowBin <= highBin < |spectrum|
  {
    if template == [] then 0.0 else Correlation(NormalizedShape(spectrum[lowBin..highBin + 1]), template, root)
  }

  /** The voice's bins in this frame at the current rate. */
  function LowBin(v: Voice, sampleRate: real): int
    requires sampleRate != 0.0
  {
    FFT.BinForFrequency(v.lowFreq, sampleRate)
  }

  function HighBin(v: Voice, sampleRate: real): int
    requires sampleRate != 0.0
  {
    FFT.BinForFrequency(v.highFreq, sampleRate)
  }

  /** The voice's mean energy in this frame, 0 when its range is not usable. */
  function FrameEnergy(v: Voice, spectrum: seq<real>, sampleRate: real): real
    requires sampleRate != 0.0
  {
    var lowBin := LowBin(v, sampleRate);
    var highBin := HighBin(v, sampleRate);
    if UsableRange(lowBin, highBin, |spectrum|) then RangeEnergy(spectrum, lowBin, highBin) else 0.0
  }

  /** The voice's shape match in this frame, 0 when its range is not usable. */
  function FrameShapeMatch(v: Voice, spectrum: seq<real>, sampleRate: real, root: real -> real): real
    requires sampleRate != 0.0
  {
    var lowBin := LowBin(v, sampleRate);
    var highBin := HighBin(v, sampleRate);
    if UsableRange(lowBin, highBin, |spectrum|) then ShapeMatch(spectrum, lowBin, highBin, v.spectralShape, root) else 0.0
  }

  /** A voice after one frame of matching, before eviction. */
  function Matched(v: Voice, spectrum: seq<real>, sampleRate: real, now: real, root: real -> real): Voice
    requires sampleRate != 0.0
  {
    var energy := FrameEnergy(v, spectrum, sampleRate);
    var active := energy > ActiveThreshold && FrameShapeMatch(v, spectrum, sampleRate, root) > MatchingThreshold;
    v.(energy := energy, isActive := active, lastActiveTime := if active then now else v.lastActiveTime)
  }

  /** Matching touches only energy, activity and the last-active time; an active
      voice was heard now and has more than the activity threshold of energy; a
      voice without a template, or whose range is not usable, is never active. */
  lemma MatchedProperties(v: Voice, spectrum: seq<real>, sampleRate: real, now: real, root: real -> real)
    requires sampleRate != 0.0
    ensures var m := Matched(v, spectrum, sampleRate, now, root);
      && m.id == v.id && m.name == v.name && m.lowFreq == v.lowFreq && m.highFreq == v.highFreq
      && m.spectralCentroid == v.spectralCentroid && m.spectralShape == v.spectralShape
      && m.energy == FrameEnergy(v, spectrum, sampleRate)
      && (m.isActive ==> m.lastActiveTime == now && m.energy > ActiveThreshold)
      && (!m.isActive ==> m.lastActiveTime == v.lastActiveTime)
      && (v.spectralShape == [] ==> !m.isActive)
      && (!UsableRange(LowBin(v, sampleRate), HighBin(v, sampleRate), |spectrum|) ==> !m.isActive)
  {
  }

  /** Over a usable range the energy is the mean of the range's magnitudes (their
      sum divided by their count), and 0 otherwise. */
  lemma FrameEnergyIsMean(v: Voice, spectrum: seq<real>, sampleRate: real)
    requires sampleRate != 0.0
    ensures var lowBin := LowBin(v, sampleRate);
      var highBin := HighBin(v, sampleRate);
      && (!UsableRange(lowBin, highBin, |spectrum|) ==> FrameEnergy(v, spectrum, sampleRate) == 0.0)
      && (UsableRange(lowBin, highBin, |spectrum|) ==>
            FrameEnergy(v, spectrum, sampleRate) * (highBin - lowBin + 1) as real == Sum(spectrum[lowBin..highBin + 1]))
  {
    var lowBin := LowBin(v, sampleRate);
    var highBin := HighBin(v, sampleRate);
    if UsableRange(lowBin, highBin, |spectrum|) {
      MulDivCancel(Sum(spectrum[lowBin..highBin + 1]), (highBin - lowBin + 1) as real);
    }
  }

  // ---------------------------------------------------------------------------
  // Eviction

  /** Silent for longer than the timeout. */
  predicate Expired(v: Voice, now: real)
  {
    now - v.lastActiveTime > VoiceTimeoutDuration
  }

  /** `voices.removeAll { now - $0.lastActiveTime > timeout }`. */
  function Evict(voices: seq<Voice>, now: real): seq<Voice>
  {
    Filter(voices, (v: Voice) => !Expired(v, now))
  }

  /** Ids strictly increase along the list. */
  ghost predicate IdsAscending(voices: seq<Voice>)
  {
    forall i, j :: 0 <= i < j < |voices| ==> voices[i].id < voices[j].id
  }

  /** Exactly the expired voices go; the survivors keep their relative order, so
      ascending ids stay ascending. */
  lemma EvictProperties(voices: seq<Voice>, now: real)
    ensures forall v :: v in Evict(voices, now) <==> v in voices && !Expired(v, now)
    ensures IdsAscending(voices) ==> IdsAscending(Evict(voices, now))
  {
    FilterMembers(voices, (v: Voice) => !Expired(v, now));
    if IdsAscending(voices) {
      FilterKeepsOrder(voices, (v: Voice) => !Expired(v, now), (a: Voice, b: Voice) => a.id < b.id);
    }
  }

  /** Every voice matched against the frame, in order. */
  function MatchedAll(voices: seq<Voice>, spectrum: seq<real>, sampleRate: real, now: real, root: real -> real): (r: seq<Voice>)
    requires sampleRate != 0.0
    ensures |r| == |voices|
  {
    seq(|voices|, i requires 0 <= i < |voices| => Matched(voices[i], spectrum, sampleRate, now, root))
  }

  /** A voice active in this frame is never evicted in it, and matching keeps ids
      and their order. */
  lemma MatchThenEvict(voices: seq<Voice>, spectrum: seq<real>, sampleRate: real, now: real, root: real -> real)
    requires sampleRate != 0.0 && IsSqrt(root)
    ensures var matched := MatchedAll(voices, spectrum, sampleRate, now, root);
      && (forall i :: 0 <= i < |matched| && matched[i].isActive ==> matched[i] in Evict(matched, now))
      && (IdsAscending(voices) ==> IdsAscending(Evict(matched, now)))
  {
    var matched := MatchedAll(voices, spectrum, sampleRate, now, root);
    EvictProperties(matched, now);
    forall i | 0 <= i < |matched| && matched[i].isActive ensures !Expired(matched[i], now) {
      MatchedProperties(voices[i], spectrum, sampleRate, now, root);
    }
    forall i | 0 <= i < |matched| ensures matched[i].id == voices[i].id {
      MatchedProperties(voices[i], spectrum, sampleRate, now, root);
    }
  }

  /** Matching and eviction hand out no new id: an upper bound on the ids still
      holds afterwards. */
  lemma MatchedIdsBelow(voices: seq<Voice>, spectrum: seq<real>, sampleRate: real, now: real, root: real -> real, bound: int)
    requires sampleRate != 0.0 && IsSqrt(root)
    requires forall v :: v in voices ==> v.id < bound
    ensures forall w :: w in Evict(MatchedAll(voices, spectrum, sampleRate, now, root), now) ==> w.id < bound
  {
    var matched := MatchedAll(voices, spectrum, sampleRate, now, root);
    EvictProperties(matched, now);
    forall w | w in Evict(matched, now) ensures w.id < bound {
      var k :| 0 <= k < |matched| && matched[k] == w;
      MatchedProperties(voices[k], spectrum, sampleRate, now, root);
      assert voices[k] in voices;
    }
  }

  // ---------------------------------------------------------------------------
  // Calibration

  /** Voices created from the regions: fresh ids from `firstId` on, named by
      centroid, inactive, with zero energy and the finalisation time. */
  function VoicesFrom(regions: seq<VoiceRegion>, firstId: nat, now: real): (voices: seq<Voice>)
    ensures |voices| == |regions|
  {
    seq(|regions|, k requires 0 <= k < |regions| =>
      Voice(firstId + k, NameForFrequency(regions[k].centroid), regions[k].lowFreq, regions[k].highFreq,
            regions[k].centroid, regions[k].shape, false, 0.0, now))
  }

  /** Freshly created voices are all inactive with zero energy, carry ascending ids
      starting at `firstId`, and keep the regions' order by centroid. */
  lemma VoicesFromProperties(regions: seq<VoiceRegion>, firstId: nat, now: real)
    requires SortedBy(regions, Centroid)
    ensures var voices := VoicesFrom(regions, firstId, now);
      && (forall v :: v in voices ==> !v.isActive && v.energy == 0.0 && firstId <= v.id < firstId + |regions|)
      && IdsAscending(voices)
      && (forall i, j :: 0 <= i < j < |voices| ==> voices[i].spectralCentroid <= voices[j].spectralCentroid)
  {
    var voices := VoicesFrom(regions, firstId, now);
    forall i, j | 0 <= i < j < |voices| ensures voices[i].spectralCentroid <= voices[j].spectralCentroid {
      assert Centroid(regions[i]) <= Centroid(regions[j]);
    }
  }

  /** The bin-by-bin mean of the history, summed spectrum by spectrum and then
      divided, as `finalizeCalibration` computes it. */
  method MeanSpectrum(history: seq<seq<real>>) returns (mean: seq<real>)
    requires |history| > 0 && RowsCover(history, |history[0]|)
    ensures mean == ColumnMean(history, |history[0]|)
  {
    var binCount := |history[0]|;
    var acc := new real[binCount](_ => 0.0);
    var k := 0;
    while k < |history|
      invariant 0 <= k <= |history|
      invariant forall i :: 0 <= i < binCount ==> acc[i] == ColumnSum(history[..k], i)
    {
      assert history[..k + 1][..k] == history[..k];
      var i := 0;
      while i < binCount
        invariant 0 <= i <= binCount
        invariant forall j :: 0 <= j < i ==> acc[j] == ColumnSum(history[..k + 1], j)
        invariant forall j :: i <= j < binCount ==> acc[j] == ColumnSum(history[..k], j)
      {
        acc[i] := acc[i] + history[k][i];
        i := i + 1;
      }
      k := k + 1;
    }
    assert history[..|history|] == history;
    var i := 0;
    while i < binCount
      invariant 0 <= i <= binCount
      invariant forall j :: 0 <= j < i ==> acc[j] == ColumnSum(history, j) / |history| as real
      invariant forall j :: i <= j < binCount ==> acc[j] == ColumnSum(history, j)
    {
      acc[i] := acc[i] / |history| as real;
      i := i + 1;
    }
    mean := acc[..];
  }

  // ---------------------------------------------------------------------------
  // The tracker

  class VoiceTracker {
    var voices: seq<Voice>
    var isCalibrating: bool
    var spectralHistory: seq<seq<real>>
    var peakHistory: seq<seq<SpectralPeak>>
    var sampleRate: real
    /** Stands in for `UUID()`: the next id to hand out. */
    var nextVoiceId: nat

    /** Both histories stay within capacity and hold spectra long enough to scan;
        they are empty once calibration is over; no voice exists during
        calibration; ids are ascending and below the next fresh id. */
    ghost predicate Valid()
      reads this
    {
      && |spectralHistory| <= MaxHistorySize && |peakHistory| == |spectralHistory|
      && (forall k :: 0 <= k < |spectralHistory| ==> 4 <= |spectralHistory[k]|)
      && (!isCalibrating ==> spectralHistory == [] && peakHistory == [])
      && (isCalibrating ==> voices == [])
      && IdsAscending(voices)
      && (forall v :: v in voices ==> v.id < nextVoiceId)
    }

    constructor ()
      ensures Valid()
      ensures voices == [] && isCalibrating && spectralHistory == [] && peakHistory == []
      ensures sampleRate == 48000.0 && nextVoiceId == 0
    {
      voices, isCalibrating := [], true;
      spectralHistory, peakHistory := [], [];
      sampleRate, nextVoiceId := 48000.0, 0;
    }

    /** One frame: calibration data while calibrating, voice matching afterwards.
        `findPeaks` needs four bins, and the bin conversions a non-zero rate. */
    method Process(spectrum: seq<real>, rate: real, now: real, root: real -> real)
      requires Valid() && IsSqrt(root)
      requires isCalibrating ==> 4 <= |spectrum|
      requires !isCalibrating ==> rate != 0.0
      modifies this
      ensures Valid()
      ensures sampleRate == rate && isCalibrating == old(isCalibrating) && nextVoiceId == old(nextVoiceId)
      ensures old(isCalibrating) ==>
        && voices == old(voices)
        && spectralHistory == PushBounded(old(spectralHistory), spectrum, MaxHistorySize)
        && peakHistory == PushBounded(old(peakHistory), Peaks(spectrum, rate), MaxHistorySize)
      ensures !old(isCalibrating) ==>
        && spectralHistory == old(spectralHistory) && peakHistory == old(peakHistory)
        && voices == Evict(MatchedAll(old(voices), spectrum, rate, now, root), now)
    {
      sampleRate := rate;
      if isCalibrating {
        CollectCalibrationData(spectrum);
      } else {
        MatchVoices(spectrum, now, root);
      }
    }

    /** Appends the spectrum and its peaks to the histories, dropping the oldest
        entry of each once it holds more than 1024. */
    method CollectCalibrationData(spectrum: seq<real>)
      requires Valid() && isCalibrating && 4 <= |spectrum|
      modifies this
      ensures Valid()
      ensures spectralHistory == PushBounded(old(spectralHistory), spectrum, MaxHistorySize)
      ensures peakHistory == PushBounded(old(peakHistory), Peaks(spectrum, sampleRate), MaxHistorySize)
      ensures voices == old(voices) && isCalibrating && sampleRate == old(sampleRate) && nextVoiceId == old(nextVoiceId)
    {
      ghost var before := spectralHistory;
      spectralHistory := PushBounded(spectralHistory, spectrum, MaxHistorySize);
      PushBoundedMembers(before, spectrum, MaxHistorySize);
      forall k | 0 <= k < |spectralHistory| ensures 4 <= |spectralHistory[k]| {
        assert spectralHistory[k] in spectralHistory;
      }
      var peaks := FindPeaks(spectrum, sampleRate);
      peakHistory := PushBounded(peakHistory, peaks, MaxHistorySize);
    }

    /** Averages the history, turns the mean spectrum's regions into voices and
        ends calibration. With nothing collected only the flag changes. */
    method FinalizeCalibration(now: real)
      requires Valid()
      requires spectralHistory != [] ==> RowsCover(spectralHistory, |spectralHistory[0]|)
      modifies this
      ensures Valid()
      ensures !isCalibrating && spectralHistory == [] && peakHistory == [] && sampleRate == old(sampleRate)
      ensures old(spectralHistory) == [] ==> voices == old(voices) && nextVoiceId == old(nextVoiceId)
      ensures old(spectralHistory) != [] ==>
        && voices == VoicesFrom(VoiceRegionsOf(ColumnMean(old(spectralHistory), |old(spectralHistory)[0]|), sampleRate),
                                old(nextVoiceId), now)
        && nextVoiceId == old(nextVoiceId) + |voices|
        && |voices| <= MaxRegions
        && forall v :: v in voices ==> !v.isActive && v.energy == 0.0
    {
      if spectralHistory == [] {
        isCalibrating := false;
        return;
      }
      var meanSpectrum := MeanSpectrum(spectralHistory);
      var regions := IdentifyVoiceRegions(meanSpectrum, sampleRate);
      VoiceRegionsProperties(meanSpectrum, sampleRate);
      VoicesFromProperties(regions, nextVoiceId, now);
      voices := VoicesFrom(regions, nextVoiceId, now);
      nextVoiceId := nextVoiceId + |regions|;
      isCalibrating := false;
      spectralHistory := [];
      peakHistory := [];
    }

    /** Updates every voice from the frame, then drops the expired ones. The voice
        list is a Swift value, so it is updated as a local copy and stored back. */
    method MatchVoices(spectrum: seq<real>, now: real, root: real -> real)
      requires Valid() && !isCalibrating && sampleRate != 0.0 && IsSqrt(root)
      modifies this
      ensures sampleRate == old(sampleRate) && nextVoiceId == old(nextVoiceId)
      ensures isCalibrating == old(isCalibrating) && spectralHistory == old(spectralHistory)
      ensures peakHistory == old(peakHistory)
      ensures Valid()
      ensures voices == Evict(MatchedAll(old(voices), spectrum, sampleRate, now, root), now)
    {
      var matched := voices;
      var i := 0;
      while i < |matched|
        invariant 0 <= i <= |matched| && |matched| == |voices| && unchanged(this)
        invariant forall k :: 0 <= k < i ==> matched[k] == Matched(voices[k], spectrum, sampleRate, now, root)
        invariant forall k :: i <= k < |matched| ==> matched[k] == voices[k]
      {
        var updated := MatchVoice(matched[i], spectrum, now, root);
        matched := matched[i := updated];
        i := i + 1;
      }
      assert matched == MatchedAll(voices, spectrum, sampleRate, now, root);
      MatchThenEvict(voices, spectrum, sampleRate, now, root);
      MatchedIdsBelow(voices, spectrum, sampleRate, now, root, nextVoiceId);
      voices := Evict(matched, now);
    }

    /** One voice: the mean energy of its bins and the correlation of their shape
        with its template decide whether it is active. */
    method MatchVoice(v: Voice, spectrum: seq<real>, now: real, root: real -> real) returns (updated: Voice)
      requires sampleRate != 0.0
      ensures updated == Matched(v, spectrum, sampleRate, now, root)
    {
      var energy, shapeMatch := MeasureVoice(v, spectrum, root);
      var active := energy > ActiveThreshold && shapeMatch > MatchingThreshold;
      updated := v.(energy := energy, isActive := active);
      if active {
        updated := updated.(lastActiveTime := now);
      }
    }

    /** The energy and shape match of one voice's bins in this frame. */
    method MeasureVoice(v: Voice, spectrum: seq<real>, root: real -> real) returns (energy: real, shapeMatch: real)
      requires sampleRate != 0.0
      ensures energy == FrameEnergy(v, spectrum, sampleRate)
      ensures shapeMatch == FrameShapeMatch(v, spectrum, sampleRate, root)
    {
      var lowBin := LowBin(v, sampleRate);
      var highBin := HighBin(v, sampleRate);
      energy, shapeMatch := 0.0, 0.0;
      if highBin > lowBin && lowBin >= 0 && highBin < |spectrum| {
        energy := SumRange(spectrum, lowBin, highBin);
        energy := energy / (highBin - lowBin + 1) as real;
        if v.spectralShape != [] {
          var extractedShape := ExtractShape(spectrum, lowBin, highBin);
          shapeMatch := Correlate(extractedShape, v.spectralShape, root);
        }
      }
    }
  }
}
