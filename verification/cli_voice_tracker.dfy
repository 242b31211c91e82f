/** The command-line tool's voice tracker: about thirty seconds of spectra are
    averaged, the six strongest peaks of the mean spectrum each found a voice over
    a window of five bins on either side, and from then on a voice is active in a
    frame when the mean magnitude of its window exceeds 0.08. The tool runs at a
    fixed 48 kHz with a 2048-point transform; `now` stands for the wall clock and
    a counter for the random identifiers. */
module CliVoices {
  import opened Numeric
  import FFT
  import VoicePeaks
  import VoiceRegions
  import VoiceTracking

  /** Spectra collected before the voices are fixed. */
  const CalibrationFrames: nat := 1400
  /** Peaks offered to the voice selection, strongest first. */
  const MaxVoices: nat := 6
  /** A voice covers this many bins on either side of its peak. */
  const HalfWidth: int := 5
  /** A voice is active when its mean magnitude exceeds this. */
  const ActiveEnergy: real := 0.08
  /** The sample rate the tool assumes. */
  const FixedRate: real := 48000.0

  datatype Voice = Voice(id: nat, name: string, lowFreq: real, highFreq: real, isActive: bool, energy: real, lastActiveTime: real)

  datatype Peak = Peak(bin: int, mag: real)

  /** `nameFor`: the six named ranges up to 4 kHz; everything else, negative
      frequencies included, is "Air". */
  function NameFor(freq: real): (name: string)
    ensures (freq < 0.0 || 4000.0 <= freq) ==> name == "Air"
  {
    if 0.0 <= freq < 100.0 then "Sub"
    else if 100.0 <= freq < 250.0 then "Bass"
    else if 250.0 <= freq < 500.0 then "Low"
    else if 500.0 <= freq < 1000.0 then "Mid"
    else if 1000.0 <= freq < 2000.0 then "High"
    else if 2000.0 <= freq < 4000.0 then "Bright"
    else "Air"
  }

  /** Up to 8 kHz the tool names frequencies as the app does; from 8 kHz up the app
      says "Ultra" where the tool keeps saying "Air". */
  lemma NameForAgreesWithApp(freq: real)
    ensures 0.0 <= freq < 8000.0 ==> NameFor(freq) == VoiceTracking.NameForFrequency(freq)
    ensures 8000.0 <= freq ==> NameFor(freq) == "Air" && VoiceTracking.NameForFrequency(freq) == "Ultra"
  {
  }

  // ---------------------------------------------------------------------------
  // Peaks of the mean spectrum

  /** The peaks among bins 2 up to, not including, `n`, in bin order. */
  function PeaksBelow(s: seq<real>, n: int): seq<Peak>
    requires n <= |s| - 2
    decreases n
  {
    if n <= 2 then []
    else PeaksBelow(s, n - 1) + (if VoicePeaks.IsPeakAt(s, n - 1) then [Peak(n - 1, s[n - 1])] else [])
  }

  /** The scan `for i in 2..<(binCount - 2)`, which needs at least four bins. */
  function CalibrationPeaks(s: seq<real>): seq<Peak>
    requires 4 <= |s|
  {
    PeaksBelow(s, |s| - 2)
  }

  lemma PeaksBelowProperties(s: seq<real>, n: int)
    requires n <= |s| - 2
    ensures forall p :: p in PeaksBelow(s, n) ==>
      2 <= p.bin < n && VoicePeaks.IsPeakAt(s, p.bin) && p.mag == s[p.bin]
    ensures forall i :: 2 <= i < n && VoicePeaks.IsPeakAt(s, i) ==> Peak(i, s[i]) in PeaksBelow(s, n)
    ensures forall a, b :: 0 <= a < b < |PeaksBelow(s, n)| ==> PeaksBelow(s, n)[a].bin < PeaksBelow(s, n)[b].bin
  {
    PeaksBelowSound(s, n);
    PeaksBelowComplete(s, n);
    PeaksBelowAscending(s, n);
  }

  lemma {:induction false} PeaksBelowSound(s: seq<real>, n: int)
    requires n <= |s| - 2
    ensures forall p :: p in PeaksBelow(s, n) ==>
      2 <= p.bin < n && VoicePeaks.IsPeakAt(s, p.bin) && p.mag == s[p.bin]
    decreases n
  {
    if n > 2 {
      PeaksBelowSound(s, n - 1);
      var prev := PeaksBelow(s, n - 1);
      assert forall p :: p in PeaksBelow(s, n) ==> p in prev || p == Peak(n - 1, s[n - 1]);
    }
  }

  lemma {:induction false} PeaksBelowComplete(s: seq<real>, n: int)
    requires n <= |s| - 2
    ensures forall i :: 2 <= i < n && VoicePeaks.IsPeakAt(s, i) ==> Peak(i, s[i]) in PeaksBelow(s, n)
    decreases n
  {
    if n > 2 {
      PeaksBelowComplete(s, n - 1);
      var prev := PeaksBelow(s, n - 1);
      assert forall p :: p in prev ==> p in PeaksBelow(s, n);
    }
  }

  lemma {:induction false} PeaksBelowAscending(s: seq<real>, n: int)
    requires n <= |s| - 2
    ensures forall a, b :: 0 <= a < b < |PeaksBelow(s, n)| ==> PeaksBelow(s, n)[a].bin < PeaksBelow(s, n)[b].bin
    decreases n
  {
    if n > 2 {
      PeaksBelowAscending(s, n - 1);
      PeaksBelowSound(s, n - 1);
      var prev := PeaksBelow(s, n - 1);
      var r := PeaksBelow(s, n);
      forall a, b | 0 <= a < b < |r| ensures r[a].bin < r[b].bin {
        if b < |prev| {
          assert r[a] == prev[a] && r[b] == prev[b];
        } else {
          assert r[a] == prev[a] && prev[a] in prev;
        }
      }
    }
  }

  function Weakness(p: Peak): real
  {
    -p.mag
  }

  /** `peaks.sort { $0.mag > $1.mag }.prefix(6)`. */
  function TopPeaks(s: seq<real>): (top: seq<Peak>)
    requires 4 <= |s|
    ensures |top| <= MaxVoices
  {
    var ranked := SortBy(CalibrationPeaks(s), Weakness);
    ranked[..MinInt(|ranked|, MaxVoices)]
  }

  /** The offered peaks are peaks of the spectrum with their magnitudes, at
      distinct bins 2 to `|s| - 3`, strongest first; a peak is left out only when
      six at least as strong ones were offered. */
  lemma TopPeaksProperties(s: seq<real>)
    requires 4 <= |s|
    ensures forall p :: p in TopPeaks(s) ==> 2 <= p.bin < |s| - 2 && VoicePeaks.IsPeakAt(s, p.bin) && p.mag == s[p.bin]
    ensures forall a, b :: 0 <= a < b < |TopPeaks(s)| ==> TopPeaks(s)[b].mag <= TopPeaks(s)[a].mag
    ensures forall a, b :: 0 <= a < b < |TopPeaks(s)| ==> TopPeaks(s)[a].bin != TopPeaks(s)[b].bin
    ensures forall i :: 2 <= i < |s| - 2 && VoicePeaks.IsPeakAt(s, i) && Peak(i, s[i]) !in TopPeaks(s) ==>
      |TopPeaks(s)| == MaxVoices && forall p :: p in TopPeaks(s) ==> s[i] <= p.mag
  {
    TopPeaksSound(s);
    TopPeaksRanked(s);
    TopPeaksOmitted(s);
  }

  lemma TopPeaksSound(s: seq<real>)
    requires 4 <= |s|
    ensures forall p :: p in TopPeaks(s) ==> 2 <= p.bin < |s| - 2 && VoicePeaks.IsPeakAt(s, p.bin) && p.mag == s[p.bin]
  {
    var peaks := CalibrationPeaks(s);
    var ranked := SortBy(peaks, Weakness);
    PeaksBelowSound(s, |s| - 2);
    SortByMembers(peaks, Weakness);
    forall p | p in TopPeaks(s) ensures p in peaks {
      assert p in ranked;
    }
  }

  lemma TopPeaksRanked(s: seq<real>)
    requires 4 <= |s|
    ensures forall a, b :: 0 <= a < b < |TopPeaks(s)| ==> TopPeaks(s)[b].mag <= TopPeaks(s)[a].mag
    ensures forall a, b :: 0 <= a < b < |TopPeaks(s)| ==> TopPeaks(s)[a].bin != TopPeaks(s)[b].bin
  {
    var peaks := CalibrationPeaks(s);
    var ranked := SortBy(peaks, Weakness);
    var top := TopPeaks(s);
    PeaksBelowAscending(s, |s| - 2);
    SortByMembers(peaks, Weakness);
    SortBySorted(peaks, Weakness);
    assert Distinct(peaks) by {
      forall a, b | 0 <= a < b < |peaks| ensures peaks[a] != peaks[b] {
        assert peaks[a].bin < peaks[b].bin;
      }
    }
    SortByDistinct(peaks, Weakness);
    forall a, b | 0 <= a < b < |top| ensures top[b].mag <= top[a].mag && top[a].bin != top[b].bin {
      assert Weakness(ranked[a]) <= Weakness(ranked[b]);
      assert ranked[a] != ranked[b];
      assert ranked[a] in peaks && ranked[b] in peaks;
    }
  }

  lemma TopPeaksOmitted(s: seq<real>)
    requires 4 <= |s|
    ensures forall i :: 2 <= i < |s| - 2 && VoicePeaks.IsPeakAt(s, i) && Peak(i, s[i]) !in TopPeaks(s) ==>
      |TopPeaks(s)| == MaxVoices && forall p :: p in TopPeaks(s) ==> s[i] <= p.mag
  {
    var peaks := CalibrationPeaks(s);
    var ranked := SortBy(peaks, Weakness);
    var top := TopPeaks(s);
    PeaksBelowComplete(s, |s| - 2);
    SortBySorted(peaks, Weakness);
    SortByMembers(peaks, Weakness);
    forall i | 2 <= i < |s| - 2 && VoicePeaks.IsPeakAt(s, i) && Peak(i, s[i]) !in top
      ensures |top| == MaxVoices && forall p :: p in top ==> s[i] <= p.mag
    {
      var q := Peak(i, s[i]);
      assert q in ranked;
      var k :| 0 <= k < |ranked| && ranked[k] == q;
      assert |top| <= k;
      forall p | p in top ensures s[i] <= p.mag {
        var j :| 0 <= j < |top| && top[j] == p;
        assert Weakness(ranked[j]) <= Weakness(ranked[k]);
      }
    }
  }

  // ---------------------------------------------------------------------------
  // Founding the voices

  function WindowLow(bin: int): int
  {
    MaxInt(0, bin - HalfWidth)
  }

  function WindowHigh(bin: int, binCount: int): int
  {
    MinInt(binCount - 1, bin + HalfWidth)
  }

  /** `Float(bin) * 48000 / 2048`. */
  function BinFrequency(bin: int): real
  {
    FFT.FrequencyForBin(bin, FixedRate)
  }

  /** The voice a peak founds: named after the peak's frequency, covering the
      frequencies of its window, inactive, silent and last heard now. */
  function Founded(p: Peak, binCount: int, id: nat, now: real): Voice
  {
    Voice(id, NameFor(BinFrequency(p.bin)), BinFrequency(WindowLow(p.bin)), BinFrequency(WindowHigh(p.bin, binCount)), false, 0.0, now)
  }

  /** The selection loop's state: the voices so far, the bins their windows claimed
      and the next fresh id. */
  datatype Selection = Selection(voices: seq<Voice>, used: set<int>, nextId: nat)

  /** One offered peak: skipped when its own bin is already claimed, otherwise it
      founds a voice and claims its window. Only the peak's bin is tested, not the
      rest of its window. */
  function SelectStep(sel: Selection, p: Peak, binCount: int, now: real): Selection
  {
    if p.bin in sel.used then sel
    else Selection(sel.voices + [Founded(p, binCount, sel.nextId, now)],
                   sel.used + VoiceRegions.Window(WindowLow(p.bin), WindowHigh(p.bin, binCount)), sel.nextId + 1)
  }

  function SelectAll(peaks: seq<Peak>, sel: Selection, binCount: int, now: real): Selection
  {
    if peaks == [] then sel
    else SelectStep(SelectAll(peaks[..|peaks| - 1], sel, binCount, now), peaks[|peaks| - 1], binCount, now)
  }

  function LowKey(v: Voice): real
  {
    v.lowFreq
  }

  /** `finalizeCalibration` on a non-empty history: the voices after the selection
      over the mean spectrum's top peaks, sorted by their lower frequency, and the
      next fresh id. */
  function Finalized(history: seq<seq<real>>, voices: seq<Voice>, nextId: nat, now: real): (seq<Voice>, nat)
    requires |history| > 0 && 4 <= |history[0]| && RowsCover(history, |history[0]|)
  {
    var mean := ColumnMean(history, |history[0]|);
    var sel := SelectAll(TopPeaks(mean), Selection(voices, {}, nextId), |mean|, now);
    (SortBy(sel.voices, LowKey), sel.nextId)
  }

  /** A voice founded over a spectrum of `binCount` bins from a peak at bin
      2..binCount - 3: its window reaches at least two bins to each side. */
  ghost predicate FoundedWell(v: Voice, binCount: int)
  {
    && !v.isActive && v.energy == 0.0
    && 0.0 <= v.lowFreq < v.highFreq <= BinFrequency(binCount - 1)
  }

  /** The selection invariant from a given start: one fresh id per founded voice,
      every founded voice well formed, and each founding peak's bin outside every
      earlier window. */
  ghost predicate Selected(sel: Selection, start: Selection, binCount: int, now: real)
  {
    && |start.voices| <= |sel.voices|
    && sel.voices[..|start.voices|] == start.voices
    && sel.nextId == start.nextId + (|sel.voices| - |start.voices|)
    && start.used <= sel.used
    && (forall k :: |start.voices| <= k < |sel.voices| ==>
          sel.voices[k].id == start.nextId + (k - |start.voices|)
          && FoundedWell(sel.voices[k], binCount) && sel.voices[k].lastActiveTime == now)
  }

  lemma FoundedProperties(p: Peak, binCount: int, id: nat, now: real)
    requires 2 <= p.bin < binCount - 2
    ensures FoundedWell(Founded(p, binCount, id, now), binCount)
    ensures WindowLow(p.bin) <= p.bin - 2 && p.bin + 2 <= WindowHigh(p.bin, binCount)
    ensures 0 <= WindowLow(p.bin) && WindowHigh(p.bin, binCount) < binCount
  {
    var lo := WindowLow(p.bin);
    var hi := WindowHigh(p.bin, binCount);
    FFT.FrequencyForBinMonotone(0, lo, FixedRate);
    FFT.FrequencyForBinMonotone(hi, binCount - 1, FixedRate);
    assert BinFrequency(lo) < BinFrequency(hi) by {
      assert lo as real * FixedRate < hi as real * FixedRate;
    }
    assert BinFrequency(0) == 0.0;
  }

  lemma {:induction false} SelectAllProperties(peaks: seq<Peak>, start: Selection, binCount: int, now: real)
    requires forall p :: p in peaks ==> 2 <= p.bin < binCount - 2
    ensures Selected(SelectAll(peaks, start, binCount, now), start, binCount, now)
    ensures |SelectAll(peaks, start, binCount, now).voices| <= |start.voices| + |peaks|
  {
    if peaks != [] {
      var init := peaks[..|peaks| - 1];
      var p := peaks[|peaks| - 1];
      assert forall q :: q in init ==> q in peaks;
      SelectAllProperties(init, start, binCount, now);
      var sel := SelectAll(init, start, binCount, now);
      if p.bin !in sel.used {
        FoundedProperties(p, binCount, sel.nextId, now);
        var next := SelectStep(sel, p, binCount, now);
        assert next.voices[..|start.voices|] == sel.voices[..|start.voices|];
        forall k | |start.voices| <= k < |next.voices|
          ensures next.voices[k].id == start.nextId + (k - |start.voices|)
          ensures FoundedWell(next.voices[k], binCount) && next.voices[k].lastActiveTime == now
        {
          if k < |sel.voices| {
            assert next.voices[k] == sel.voices[k];
          }
        }
      }
    }
  }

  /** A peak whose bin was claimed is skipped; otherwise it founds a voice whose
      window covers it, and that bin lay outside every window claimed before. */
  lemma SelectStepEffect(sel: Selection, p: Peak, binCount: int, now: real)
    requires 2 <= p.bin < binCount - 2
    ensures p.bin in sel.used ==> SelectStep(sel, p, binCount, now) == sel
    ensures p.bin !in sel.used ==>
      var next := SelectStep(sel, p, binCount, now);
      && next.voices == sel.voices + [Founded(p, binCount, sel.nextId, now)]
      && (forall b :: b in next.used <==> b in sel.used || WindowLow(p.bin) <= b <= WindowHigh(p.bin, binCount))
      && p.bin in next.used
  {
    VoiceRegions.WindowMembers(WindowLow(p.bin), WindowHigh(p.bin, binCount));
  }

  /** Unlike the app's region selection, the tool lets windows overlap: peaks at
      bins 10 and 16 of a 100-bin spectrum found voices over bins 5..15 and 11..21. */
  lemma WindowsMayOverlap(now: real)
    ensures var sel := SelectAll([Peak(10, 0.5), Peak(16, 0.4)], Selection([], {}, 0), 100, now);
      && |sel.voices| == 2
      && sel.voices[0].lowFreq < sel.voices[1].lowFreq < sel.voices[0].highFreq
  {
    var s0 := Selection([], {}, 0);
    var ps := [Peak(10, 0.5), Peak(16, 0.4)];
    var one := [Peak(10, 0.5)];
    assert ps[..1] == one && one[..0] == [];
    assert SelectAll(one[..0], s0, 100, now) == s0;
    var s1 := SelectAll(one, s0, 100, now);
    assert s1 == SelectStep(s0, Peak(10, 0.5), 100, now);
    VoiceRegions.WindowMembers(5, 15);
    assert s1.used == VoiceRegions.Window(5, 15);
    assert 16 !in s1.used;
    var s2 := SelectStep(s1, Peak(16, 0.4), 100, now);
    assert SelectAll(ps, s0, 100, now) == s2;
    assert s2.voices[0].lowFreq == BinFrequency(5) && s2.voices[0].highFreq == BinFrequency(15);
    assert s2.voices[1].lowFreq == BinFrequency(11);
  }

  /** After calibration from no voices: at most six voices, sorted by their lower
      frequency, with distinct fresh ids, each inactive, silent, last heard now
      and covering a frequency range of positive width below the top bin's. */
  lemma FinalizedProperties(history: seq<seq<real>>, nextId: nat, now: real)
    requires |history| > 0 && 4 <= |history[0]| && RowsCover(history, |history[0]|)
    ensures var (voices, next) := Finalized(history, [], nextId, now);
      && |voices| <= MaxVoices && next == nextId + |voices|
      && (forall i, j :: 0 <= i < j < |voices| ==> voices[i].lowFreq <= voices[j].lowFreq && voices[i].id != voices[j].id)
      && (forall v :: v in voices ==> nextId <= v.id < next && v.lastActiveTime == now && FoundedWell(v, |history[0]|))
  {
    var mean := ColumnMean(history, |history[0]|);
    var start := Selection([], {}, nextId);
    TopPeaksProperties(mean);
    SelectAllProperties(TopPeaks(mean), start, |mean|, now);
    SortedSelection(SelectAll(TopPeaks(mean), start, |mean|, now), start, |mean|, now);
  }

  /** The voices of a selection from no voices, sorted by lower frequency. */
  lemma SortedSelection(sel: Selection, start: Selection, binCount: int, now: real)
    requires start.voices == [] && Selected(sel, start, binCount, now)
    ensures var sorted := SortBy(sel.voices, LowKey);
      && |sorted| == |sel.voices|
      && (forall i, j :: 0 <= i < j < |sorted| ==> sorted[i].lowFreq <= sorted[j].lowFreq && sorted[i].id != sorted[j].id)
      && (forall v :: v in sorted ==> start.nextId <= v.id < sel.nextId && v.lastActiveTime == now && FoundedWell(v, binCount))
  {
    var sorted := SortBy(sel.voices, LowKey);
    forall v | v in sel.voices ensures start.nextId <= v.id < sel.nextId && v.lastActiveTime == now && FoundedWell(v, binCount) {
      var k :| 0 <= k < |sel.voices| && sel.voices[k] == v;
    }
    SortBySorted(sel.voices, LowKey);
    SortByMembers(sel.voices, LowKey);
    SortByPermutes(sel.voices, LowKey);
    IdsOfSorted(sel, start, binCount, now);
    forall i, j | 0 <= i < j < |sorted| ensures sorted[i].lowFreq <= sorted[j].lowFreq {
      assert LowKey(sorted[i]) <= LowKey(sorted[j]);
    }
  }

  lemma IdsOfSorted(sel: Selection, start: Selection, binCount: int, now: real)
    requires start.voices == [] && Selected(sel, start, binCount, now)
    ensures var sorted := SortBy(sel.voices, LowKey);
      forall i, j :: 0 <= i < j < |sorted| ==> sorted[i].id != sorted[j].id
  {
    var sorted := SortBy(sel.voices, LowKey);
    assert Distinct(sel.voices) by {
      forall a, b | 0 <= a < b < |sel.voices| ensures sel.voices[a] != sel.voices[b] {
        assert sel.voices[a].id == start.nextId + a;
        assert sel.voices[b].id == start.nextId + b;
      }
    }
    SortByDistinct(sel.voices, LowKey);
    SortByMembers(sel.voices, LowKey);
    forall i, j | 0 <= i < j < |sorted| ensures sorted[i].id != sorted[j].id {
      assert sorted[i] != sorted[j];
      assert sorted[i] in sorted && sorted[j] in sorted;
      var a :| 0 <= a < |sel.voices| && sel.voices[a] == sorted[i];
      var b :| 0 <= b < |sel.voices| && sel.voices[b] == sorted[j];
      assert sel.voices[a].id == start.nextId + a && sel.voices[b].id == start.nextId + b;
    }
  }

  // ---------------------------------------------------------------------------
  // Matching

  function LowBin(v: Voice): int
  {
    FFT.BinForFrequency(v.lowFreq, FixedRate)
  }

  function HighBin(v: Voice): int
  {
    FFT.BinForFrequency(v.highFreq, FixedRate)
  }

  /** The mean magnitude over the voice's bins, 0 when they are not a usable range. */
  function FrameEnergy(v: Voice, spectrum: seq<real>): real
  {
    var lowBin := LowBin(v);
    var highBin := HighBin(v);
    if VoiceTracking.UsableRange(lowBin, highBin, |spectrum|) then VoiceTracking.RangeEnergy(spectrum, lowBin, highBin) else 0.0
  }

  /** A voice after one frame: its energy, active above 0.08, heard now when active. */
  function Matched(v: Voice, spectrum: seq<real>, now: real): Voice
  {
    var energy := FrameEnergy(v, spectrum);
    v.(energy := energy, isActive := energy > ActiveEnergy, lastActiveTime := if energy > ActiveEnergy then now else v.lastActiveTime)
  }

  function MatchedAll(voices: seq<Voice>, spectrum: seq<real>, now: real): (r: seq<Voice>)
    ensures |r| == |voices|
  {
    seq(|voices|, i requires 0 <= i < |voices| => Matched(voices[i], spectrum, now))
  }

  /** A voice founded over the same number of bins reads back exactly the bins of
      its window: its energy is their mean, and it is active exactly when that mean
      exceeds 0.08. Identity, name and range never change. */
  lemma MatchedFounded(p: Peak, binCount: int, id: nat, then_: real, spectrum: seq<real>, now: real)
    requires 2 <= p.bin < binCount - 2 && |spectrum| == binCount
    ensures var v := Founded(p, binCount, id, then_);
      var lo := WindowLow(p.bin);
      var hi := WindowHigh(p.bin, binCount);
      var m := Matched(v, spectrum, now);
      && LowBin(v) == lo && HighBin(v) == hi
      && m.energy == VoiceTracking.RangeEnergy(spectrum, lo, hi)
      && (m.isActive <==> VoiceTracking.RangeEnergy(spectrum, lo, hi) > ActiveEnergy)
      && m.id == id && m.name == v.name && m.lowFreq == v.lowFreq && m.highFreq == v.highFreq
  {
    var lo := WindowLow(p.bin);
    var hi := WindowHigh(p.bin, binCount);
    FoundedProperties(p, binCount, id, then_);
    FFT.BinFrequencyRoundTrip(lo, FixedRate);
    FFT.BinFrequencyRoundTrip(hi, FixedRate);
  }

  /** Matching keeps every voice, in order, with its identity and range; only the
      active ones are marked heard now. */
  lemma MatchedAllProperties(voices: seq<Voice>, spectrum: seq<real>, now: real)
    ensures forall k :: 0 <= k < |voices| ==>
      var m := MatchedAll(voices, spectrum, now)[k];
      && m.id == voices[k].id && m.name == voices[k].name
      && m.lowFreq == voices[k].lowFreq && m.highFreq == voices[k].highFreq
      && (m.isActive <==> m.energy > ActiveEnergy)
      && (m.isActive ==> m.lastActiveTime == now)
      && (!m.isActive ==> m.lastActiveTime == voices[k].lastActiveTime)
  {
  }

  // ---------------------------------------------------------------------------
  // The tracker

  class VoiceTracker {
    var voices: seq<Voice>
    var isCalibrating: bool
    var spectralHistory: seq<seq<real>>
    /** Stands in for `UUID()`: the next id to hand out. */
    var nextVoiceId: nat

    /** During calibration there are no voices and fewer than 1400 stored spectra,
        all at least as long as the first and that one at least four bins long;
        afterwards the history is empty. */
    ghost predicate Valid()
      reads this
    {
      && (isCalibrating ==> voices == [] && |spectralHistory| < CalibrationFrames)
      && (!isCalibrating ==> spectralHistory == [])
      && (spectralHistory != [] ==> 4 <= |spectralHistory[0]| && RowsCover(spectralHistory, |spectralHistory[0]|))
      && (forall v :: v in voices ==> v.id < nextVoiceId)
    }

    constructor ()
      ensures Valid()
      ensures voices == [] && isCalibrating && spectralHistory == [] && nextVoiceId == 0
    {
      voices, isCalibrating, spectralHistory, nextVoiceId := [], true, [], 0;
    }

    /** `calibrationProgress`: the share of the 1400 spectra collected; below 1
        while calibrating and 0 afterwards. */
    function CalibrationProgress(): (progress: real)
      reads this
      requires Valid()
      ensures isCalibrating ==> 0.0 <= progress < 1.0
      ensures !isCalibrating ==> progress == 0.0
    {
      |spectralHistory| as real / CalibrationFrames as real
    }

    /** One frame: stored while calibrating, with the voices fixed once 1400 are
        stored; matched afterwards. The peak scan needs four bins, and every later
        spectrum as many bins as the first. */
    method Process(spectrum: seq<real>, now: real)
      requires Valid()
      requires isCalibrating ==> 4 <= |spectrum| && (spectralHistory != [] ==> |spectralHistory[0]| <= |spectrum|)
      modifies this
      ensures Valid()
      ensures old(isCalibrating) && |old(spectralHistory)| + 1 < CalibrationFrames ==>
        && spectralHistory == old(spectralHistory) + [spectrum] && isCalibrating
        && voices == old(voices) && nextVoiceId == old(nextVoiceId)
      ensures old(isCalibrating) && |old(spectralHistory)| + 1 >= CalibrationFrames ==>
        && !isCalibrating && spectralHistory == []
        && (voices, nextVoiceId) == Finalized(old(spectralHistory) + [spectrum], old(voices), old(nextVoiceId), now)
      ensures !old(isCalibrating) ==>
        && !isCalibrating && spectralHistory == [] && nextVoiceId == old(nextVoiceId)
        && voices == MatchedAll(old(voices), spectrum, now)
    {
      if isCalibrating {
        spectralHistory := spectralHistory + [spectrum];
        if |spectralHistory| >= CalibrationFrames {
          FinalizeCalibration(now);
        }
      } else {
        MatchVoices(spectrum, now);
      }
    }

    /** `finalizeCalibration`: founds the voices from the mean spectrum, sorts them
        by lower frequency, clears the history and ends calibration. An empty
        history only ends calibration. */
    method FinalizeCalibration(now: real)
      requires spectralHistory != [] ==> 4 <= |spectralHistory[0]| && RowsCover(spectralHistory, |spectralHistory[0]|)
      requires forall v :: v in voices ==> v.id < nextVoiceId
      modifies this
      ensures !isCalibrating && spectralHistory == []
      ensures old(spectralHistory) == [] ==> voices == old(voices) && nextVoiceId == old(nextVoiceId)
      ensures old(spectralHistory) != [] ==>
        (voices, nextVoiceId) == Finalized(old(spectralHistory), old(voices), old(nextVoiceId), now)
      ensures forall v :: v in voices ==> v.id < nextVoiceId
    {
      if spectralHistory == [] {
        isCalibrating := false;
        return;
      }
      var meanSpectrum := VoiceTracking.MeanSpectrum(spectralHistory);
      var peaks := FindPeaks(meanSpectrum);
      var ranked := SortBy(peaks, Weakness);
      var top := ranked[..MinInt(|ranked|, MaxVoices)];
      var start := Selection(voices, {}, nextVoiceId);
      var sel := SelectVoices(top, start, |meanSpectrum|, now);
      FinalizedIds(spectralHistory, voices, nextVoiceId, now);
      voices := SortBy(sel.voices, LowKey);
      nextVoiceId := sel.nextId;
      spectralHistory := [];
      isCalibrating := false;
    }

    /** Voice matching; the tool never drops a voice. The voice list is a Swift
        value, so it is updated as a local copy and stored back. */
    method MatchVoices(spectrum: seq<real>, now: real)
      modifies this
      ensures voices == MatchedAll(old(voices), spectrum, now)
      ensures isCalibrating == old(isCalibrating) && spectralHistory == old(spectralHistory)
      ensures nextVoiceId == old(nextVoiceId)
    {
      var matched := voices;
      var i := 0;
      while i < |matched|
        invariant 0 <= i <= |matched| && |matched| == |voices| && unchanged(this)
        invariant forall k :: 0 <= k < i ==> matched[k] == Matched(voices[k], spectrum, now)
        invariant forall k :: i <= k < |matched| ==> matched[k] == voices[k]
      {
        var energy := MeasureVoice(matched[i], spectrum);
        var active := energy > ActiveEnergy;
        var updated := matched[i].(energy := energy, isActive := active);
        if active {
          updated := updated.(lastActiveTime := now);
        }
        matched := matched[i := updated];
        i := i + 1;
      }
      voices := matched;
    }
  }

  /** Ids stay below the next fresh id through the calibration. */
  lemma FinalizedIds(history: seq<seq<real>>, voices: seq<Voice>, nextId: nat, now: real)
    requires |history| > 0 && 4 <= |history[0]| && RowsCover(history, |history[0]|)
    requires forall v :: v in voices ==> v.id < nextId
    ensures var (r, next) := Finalized(history, voices, nextId, now);
      nextId <= next && forall v :: v in r ==> v.id < next
  {
    var mean := ColumnMean(history, |history[0]|);
    var start := Selection(voices, {}, nextId);
    TopPeaksProperties(mean);
    SelectAllProperties(TopPeaks(mean), start, |mean|, now);
    var sel := SelectAll(TopPeaks(mean), start, |mean|, now);
    SortByMembers(sel.voices, LowKey);
    forall v | v in sel.voices ensures v.id < sel.nextId {
      var k :| 0 <= k < |sel.voices| && sel.voices[k] == v;
      if k < |voices| {
        assert sel.voices[..|voices|][k] == voices[k];
        assert voices[k] in voices;
      }
    }
  }

  /** The peak scan over bins `2..<(binCount - 2)`. */
  method FindPeaks(s: seq<real>) returns (peaks: seq<Peak>)
    requires 4 <= |s|
    ensures peaks == CalibrationPeaks(s)
  {
    peaks := [];
    var i := 2;
    while i < |s| - 2
      invariant 2 <= i <= |s| - 2
      invariant peaks == PeaksBelow(s, i)
    {
      if s[i] > s[i - 1] && s[i] > s[i + 1] && s[i] > s[i - 2] && s[i] > s[i + 2] && s[i] > VoicePeaks.PeakThreshold {
        peaks := peaks + [Peak(i, s[i])];
      }
      i := i + 1;
    }
  }

  /** The selection loop over the offered peaks, claiming each window bin by bin. */
  method SelectVoices(top: seq<Peak>, start: Selection, binCount: int, now: real) returns (sel: Selection)
    ensures sel == SelectAll(top, start, binCount, now)
  {
    sel := start;
    var k := 0;
    while k < |top|
      invariant 0 <= k <= |top|
      invariant sel == SelectAll(top[..k], start, binCount, now)
    {
      assert top[..k + 1][..k] == top[..k];
      var peak := top[k];
      if peak.bin !in sel.used {
        var low := MaxInt(0, peak.bin - HalfWidth);
        var high := MinInt(binCount - 1, peak.bin + HalfWidth);
        var used := VoiceRegions.ClaimBins(sel.used, low, high);
        var freq := BinFrequency(peak.bin);
        var voice := Voice(sel.nextId, NameFor(freq), BinFrequency(low), BinFrequency(high), false, 0.0, now);
        sel := Selection(sel.voices + [voice], used, sel.nextId + 1);
      }
      k := k + 1;
    }
    assert top[..|top|] == top;
  }

  /** The energy of one voice's bins in this frame. */
  method MeasureVoice(v: Voice, spectrum: seq<real>) returns (energy: real)
    ensures energy == FrameEnergy(v, spectrum)
  {
    var lowBin := FFT.BinForFrequency(v.lowFreq, FixedRate);
    var highBin := FFT.BinForFrequency(v.highFreq, FixedRate);
    energy := 0.0;
    if lowBin >= 0 && highBin < |spectrum| && highBin > lowBin {
      energy := VoiceTracking.SumRange(spectrum, lowBin, highBin);
      energy := energy / (highBin - lowBin + 1) as real;
    }
  }
}
