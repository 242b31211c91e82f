/** The web client's feature extractor: per analyser it builds the bin frequency
    table and keeps the band energies, the previous spectrum and the tracked
    voices; each frame it refreshes the band energies, updates the voices and
    publishes a projection of them. The frame's RMS level is an input: its square
    root is not part of this model. */
module Features {
  import opened Numeric
  import opened FeatureBands
  import opened FeatureVoices

  /** One published voice. */
  datatype VoiceView = VoiceView(id: nat, frequency: real, freqNorm: real, energy: real, age: nat, color: Color, bandIndex: nat)

  /** What `extract` returns. */
  datatype Frame = Frame(spectrum: seq<real>, rms: real, bandEnergies: seq<real>, voices: seq<VoiceView>)

  /** The projection of one voice: its centre's frequency from the table, the
      centre relative to the bin count, and its smoothed energy. */
  function View(v: TrackedVoice, table: seq<real>): VoiceView
    requires 0 <= v.binCenter < |table|
  {
    VoiceView(v.id, table[v.binCenter], v.binCenter as real / |table| as real, v.smoothedEnergy, v.age, v.color, v.bandIndex)
  }

  function Views(voices: seq<TrackedVoice>, table: seq<real>): (r: seq<VoiceView>)
    requires forall v :: v in voices ==> 0 <= v.binCenter < |table|
    ensures |r| == |voices|
  {
    seq(|voices|, i requires 0 <= i < |voices| => View(voices[i], table))
  }

  /** Every published voice keeps its id and order, sits at a frequency of the
      table below the Nyquist frequency, and has a relative position in [0,1). */
  lemma ViewsProperties(voices: seq<TrackedVoice>, table: seq<real>, sampleRate: real)
    requires forall v :: v in voices ==> 0 <= v.binCenter < |table|
    requires 0.0 < sampleRate && forall i :: 0 <= i < |table| ==> table[i] == BinFrequency(i, sampleRate, |table|)
    ensures forall k :: 0 <= k < |voices| ==>
      && Views(voices, table)[k].id == voices[k].id
      && 0.0 <= Views(voices, table)[k].frequency < sampleRate / 2.0
      && 0.0 <= Views(voices, table)[k].freqNorm < 1.0
  {
    forall k | 0 <= k < |voices|
      ensures 0.0 <= Views(voices, table)[k].frequency < sampleRate / 2.0
      ensures 0.0 <= Views(voices, table)[k].freqNorm < 1.0
    {
      var c := voices[k].binCenter;
      assert voices[k] in voices;
      BinFrequencyMonotone(c, c, sampleRate, |table|);
      BinFrequencyBelowNyquist(c, sampleRate, |table|);
      DivMonotone(0.0, c as real, |table| as real);
      DivLess(c as real, |table| as real, |table| as real);
    }
  }

  class FeatureExtractor {
    const sampleRate: real
    const frequencyBins: nat
    const nyquist: real
    /** The bin frequency table; written once, by the constructor. */
    const frequencies: seq<real>
    const previousSpectrum: array<real>
    const bandEnergies: array<real>
    const bandEnergiesSmooth: array<real>
    var voices: seq<TrackedVoice>
    var nextVoiceId: nat
    var frameCount: int

    /** The buffers have their sizes and are distinct, the table holds the bin
        frequencies, and the voices are tracked on a spectrum of `frequencyBins`
        bins. */
    ghost predicate Valid()
      reads this
    {
      && bandEnergies.Length == BandCount && bandEnergiesSmooth.Length == BandCount
      && previousSpectrum.Length == frequencyBins
      && bandEnergies != bandEnergiesSmooth && previousSpectrum != bandEnergies && previousSpectrum != bandEnergiesSmooth
      && nyquist == sampleRate / 2.0
      && |frequencies| == frequencyBins
      && (forall i :: 0 <= i < frequencyBins ==> frequencies[i] == BinFrequency(i, sampleRate, frequencyBins))
      && Tracked(voices, nextVoiceId, frequencyBins)
      && 0 <= frameCount
    }

    constructor (sampleRate: real, frequencyBins: nat)
      ensures Valid()
      ensures this.sampleRate == sampleRate && this.frequencyBins == frequencyBins
      ensures fresh(previousSpectrum) && fresh(bandEnergies) && fresh(bandEnergiesSmooth)
      ensures forall i :: 0 <= i < frequencyBins ==> previousSpectrum[i] == 0.0
      ensures forall b :: 0 <= b < BandCount ==> bandEnergies[b] == 0.0 && bandEnergiesSmooth[b] == 0.0
      ensures voices == [] && nextVoiceId == 0 && frameCount == 0
    {
      this.sampleRate := sampleRate;
      this.frequencyBins := frequencyBins;
      nyquist := sampleRate / 2.0;
      previousSpectrum := new real[frequencyBins](_ => 0.0);
      var table: seq<real> := [];
      var i := 0;
      while i < frequencyBins
        invariant 0 <= i <= frequencyBins && |table| == i
        invariant forall k :: 0 <= k < i ==> table[k] == BinFrequency(k, sampleRate, frequencyBins)
      {
        var f := (i as real * (sampleRate / 2.0)) / frequencyBins as real;
        assert f == BinFrequency(i, sampleRate, frequencyBins);
        table := table + [f];
        i := i + 1;
      }
      frequencies := table;
      bandEnergies := new real[BandCount](_ => 0.0);
      bandEnergiesSmooth := new real[BandCount](_ => 0.0);
      voices := [];
      nextVoiceId := 0;
      frameCount := 0;
    }

    /** `extract`: counts the frame, refreshes the band energies, updates the
        voices and remembers the spectrum. The analyser hands over exactly
        `frequencyBins` values. */
    method Extract(spectrum: seq<real>, rms: real) returns (frame: Frame)
      requires Valid() && |spectrum| == frequencyBins
      modifies this, previousSpectrum, bandEnergies, bandEnergiesSmooth
      ensures Valid()
      ensures frameCount == old(frameCount) + 1
      ensures forall b :: 0 <= b < BandCount ==>
        && bandEnergies[b] == BandMean(spectrum, frequencies, Bands[b])
        && bandEnergiesSmooth[b] == Lerp(old(bandEnergiesSmooth[b]), bandEnergies[b], BandSmoothing)
      ensures (voices, nextVoiceId) == VoicesAfter(old(voices), old(nextVoiceId), spectrum, rms, frameCount, frequencies)
      ensures previousSpectrum[..] == spectrum
      ensures frame == Frame(spectrum, rms, bandEnergiesSmooth[..], Views(voices, frequencies))
    {
      frameCount := frameCount + 1;
      CalculateBandEnergies(spectrum);
      UpdateVoices(spectrum, rms);
      forall i | 0 <= i < |spectrum| {
        previousSpectrum[i] := spectrum[i];
      }
      frame := Frame(spectrum, rms, bandEnergiesSmooth[..], Views(voices, frequencies));
    }

    /** `calculateBandEnergies`: each band's mean, and the smoothed value moved 12%
        of the way to it. */
    method CalculateBandEnergies(spectrum: seq<real>)
      requires Valid() && frequencyBins <= |spectrum|
      modifies bandEnergies, bandEnergiesSmooth
      ensures forall b :: 0 <= b < BandCount ==>
        && bandEnergies[b] == BandMean(spectrum, frequencies, Bands[b])
        && bandEnergiesSmooth[b] == Lerp(old(bandEnergiesSmooth[b]), bandEnergies[b], BandSmoothing)
    {
      var b := 0;
      while b < BandCount
        invariant 0 <= b <= BandCount
        invariant forall k :: 0 <= k < b ==>
          && bandEnergies[k] == BandMean(spectrum, frequencies, Bands[k])
          && bandEnergiesSmooth[k] == Lerp(old(bandEnergiesSmooth[k]), bandEnergies[k], BandSmoothing)
        invariant forall k :: b <= k < BandCount ==> bandEnergiesSmooth[k] == old(bandEnergiesSmooth[k])
      {
        var energy, count := BandTotal(spectrum, Bands[b]);
        bandEnergies[b] := if count > 0 then energy / count as real else 0.0;
        bandEnergiesSmooth[b] := bandEnergiesSmooth[b] + (bandEnergies[b] - bandEnergiesSmooth[b]) * BandSmoothing;
        b := b + 1;
      }
    }

    /** The inner loop over the bins for one band. */
    method BandTotal(spectrum: seq<real>, band: Band) returns (energy: real, count: nat)
      requires Valid() && frequencyBins <= |spectrum|
      ensures energy == BandSum(spectrum, frequencies, band, frequencyBins)
      ensures count == BandBins(frequencies, band, frequencyBins)
    {
      energy, count := 0.0, 0;
      var i := 0;
      while i < frequencyBins
        invariant 0 <= i <= frequencyBins
        invariant energy == BandSum(spectrum, frequencies, band, i) && count == BandBins(frequencies, band, i)
      {
        var freq := frequencies[i];
        if freq >= band.min && freq < band.max {
          energy := energy + spectrum[i];
          count := count + 1;
        }
        i := i + 1;
      }
    }

    /** `updateVoices`, for the frame already counted. */
    method UpdateVoices(spectrum: seq<real>, rms: real)
      requires Valid() && |spectrum| == frequencyBins
      modifies this
      ensures Valid() && frameCount == old(frameCount)
      ensures (voices, nextVoiceId) == VoicesAfter(old(voices), old(nextVoiceId), spectrum, rms, frameCount, frequencies)
    {
      VoicesAfterKeeps(voices, nextVoiceId, spectrum, rms, frameCount, frequencies);
      if rms < QuietRms {
        var hushed := HushAll(voices);
        voices := Survivors(hushed, frameCount);
        return;
      }
      var peaks := FindLocalPeaks(spectrum);
      var ranked := SortBy(peaks, Weakness);
      var top := ranked[..MinInt(|ranked|, MaxVoices)];
      var st := MatchAll(top, frameCount);
      voices := Survivors(SettledAll(st.voices, st.claimed), frameCount);
      nextVoiceId := st.nextId;
    }

    /** The quiet-frame fading loop. */
    method HushAll(vs: seq<TrackedVoice>) returns (r: seq<TrackedVoice>)
      ensures r == HushedAll(vs)
    {
      r := vs;
      var i := 0;
      while i < |r|
        invariant 0 <= i <= |r| && |r| == |vs|
        invariant forall k :: 0 <= k < i ==> r[k] == Hushed(vs[k])
        invariant forall k :: i <= k < |r| ==> r[k] == vs[k]
      {
        r := r[i := r[i].(smoothedEnergy := r[i].smoothedEnergy * QuietSmoothedDecay, energy := r[i].energy * QuietEnergyDecay)];
        i := i + 1;
      }
    }

    /** The peak scan over bins `2..<length - 2`. */
    method FindLocalPeaks(spectrum: seq<real>) returns (peaks: seq<Peak>)
      ensures peaks == LocalPeaks(spectrum)
    {
      peaks := [];
      var i := 2;
      while i < |spectrum| - 2
        invariant 2 <= i && (i <= |spectrum| - 2 || i == 2)
        invariant peaks == LocalPeaksBelow(spectrum, if i <= |spectrum| - 2 then i else |spectrum| - 2)
      {
        if spectrum[i] > PeakThreshold && spectrum[i] > spectrum[i - 1] && spectrum[i] > spectrum[i + 1]
          && spectrum[i] > spectrum[i - 2] && spectrum[i] > spectrum[i + 2] {
          peaks := peaks + [Peak(i, spectrum[i])];
        }
        i := i + 1;
      }
    }

    /** The loop over the top peaks, claiming or founding voices. */
    method MatchAll(top: seq<Peak>, frame: int) returns (st: MatchState)
      ensures st == MatchPeaks(top, MatchState(voices, {}, nextVoiceId), frame, frequencies)
    {
      var start := MatchState(voices, {}, nextVoiceId);
      st := start;
      var k := 0;
      while k < |top|
        invariant 0 <= k <= |top|
        invariant st == MatchPeaks(top[..k], start, frame, frequencies)
      {
        assert top[..k + 1][..k] == top[..k];
        var peak := top[k];
        var best := FindNearest(st.voices, st.claimed, peak.bin);
        if best.Some? {
          var i := best.value;
          var v := st.voices[i];
          var refreshed := v.(binCenter := RoundHalfUp(v.binCenter as real * 0.85 + peak.bin as real * 0.15),
                              energy := peak.energy,
                              smoothedEnergy := v.smoothedEnergy + (peak.energy - v.smoothedEnergy) * EnergyFollow,
                              age := v.age + 1,
                              lastActiveFrame := frame);
          st := MatchState(st.voices[i := refreshed], st.claimed + {v.id}, st.nextId);
        } else if |st.voices| < MaxVoices && peak.energy > CreateEnergy {
          var band := BandForBin(peak.bin, frequencies);
          st := MatchState(st.voices + [TrackedVoice(st.nextId, peak.bin, peak.energy, peak.energy, 0, band, Bands[band].color, frame)],
                           st.claimed, st.nextId + 1);
        }
        k := k + 1;
      }
      assert top[..|top|] == top;
    }

    /** The nearest-voice loop for one peak. */
    method FindNearest(vs: seq<TrackedVoice>, claimed: set<nat>, bin: int) returns (best: Option<nat>)
      ensures best == Nearest(vs, claimed, bin)
    {
      best := None;
      var bestDist := MatchRadius;
      var j := 0;
      while j < |vs|
        invariant 0 <= j <= |vs|
        invariant (best, bestDist) == NearestBelow(vs, claimed, bin, j)
      {
        if vs[j].id !in claimed {
          var dist := Abs(vs[j].binCenter - bin);
          if dist < bestDist {
            bestDist := dist;
            best := Some(j);
          }
        }
        j := j + 1;
      }
    }
  }
}
