/** Region selection of the calibrated voice tracker: the candidate peaks, strongest
    first, greedily claim bin windows around themselves; a peak whose window touches
    a claimed bin is passed over. Each accepted window becomes a voice region with a
    spectral-shape template, and the regions are ordered by centroid. */
module VoiceRegions {
  import opened Numeric
  import opened VoicePeaks
  import FFT

  /** A region keeps the bin window it claimed next to the frequencies it reports. */
  datatype VoiceRegion = VoiceRegion(
    lowBin: int,
    highBin: int,
    peakBin: int,
    lowFreq: real,
    highFreq: real,
    centroid: real,
    shape: seq<real>)

  /** The window `[bin - bw - 2, bin + bw + 2]`, clamped to the spectrum. */
  function WindowLow(p: SpectralPeak): int
  {
    MaxInt(0, p.binIndex - p.bandwidth - 2)
  }

  function WindowHigh(p: SpectralPeak, binCount: int): int
  {
    MinInt(binCount - 1, p.binIndex + p.bandwidth + 2)
  }

  /** The bins `lo..hi`, as the set `for bin in lowBin...highBin` inserts them into. */
  function Window(lo: int, hi: int): set<int>
    decreases hi - lo
  {
    if hi < lo then {} else Window(lo, hi - 1) + {hi}
  }

  lemma {:induction false} WindowMembers(lo: int, hi: int)
    ensures forall b :: b in Window(lo, hi) <==> lo <= b <= hi
    decreases hi - lo
  {
    if lo <= hi {
      WindowMembers(lo, hi - 1);
    }
  }

  /** Some bin of `[lo, hi]` has been claimed already. */
  predicate Overlaps(used: set<int>, lo: int, hi: int)
  {
    exists b :: lo <= b <= hi && b in used
  }

  /** The template: the window's values divided by their maximum, left as they are
      when no value is positive. */
  function NormalizedShape(values: seq<real>): (shape: seq<real>)
    ensures |shape| == |values|
  {
    var m := MaxOrZero(values);
    if m > 0.0 then ScaledBy(values, m) else values
  }

  /** `values.map { $0 / m }`. */
  function ScaledBy(values: seq<real>, m: real): (r: seq<real>)
    requires m != 0.0
    ensures |r| == |values|
  {
    seq(|values|, k requires 0 <= k < |values| => values[k] / m)
  }

  /** Templates of non-negative values lie in [0,1] and reach 1 exactly at the
      maximum, when there is a positive value. */
  lemma NormalizedShapeRange(values: seq<real>)
    requires forall k :: 0 <= k < |values| ==> 0.0 <= values[k]
    ensures forall k :: 0 <= k < |values| ==> 0.0 <= NormalizedShape(values)[k] <= 1.0
    ensures 0.0 < MaxOrZero(values) ==> exists k :: 0 <= k < |values| && NormalizedShape(values)[k] == 1.0
  {
    var m := MaxOrZero(values);
    MaxOrZeroBounds(values);
    if m > 0.0 {
      var shape := ScaledBy(values, m);
      assert NormalizedShape(values) == shape;
      forall k | 0 <= k < |values| ensures 0.0 <= shape[k] <= 1.0 {
        DivAtMostOne(values[k], m);
      }
      var k :| 0 <= k < |values| && values[k] == m;
      MulDivCancel(1.0, m);
      assert shape[k] == 1.0;
    }
  }

  /** The running maximum takes one more value. */
  lemma MaxOrZeroAppend(s: seq<real>, x: real)
    ensures MaxOrZero(s + [x]) == Max(MaxOrZero(s), x)
  {
    assert (s + [x])[..|s|] == s;
  }

  lemma DivAtMostOne(x: real, m: real)
    requires 0.0 <= x <= m && 0.0 < m
    ensures 0.0 <= x / m <= 1.0
  {
    DivAntitone(x, m, m);
  }

  predicate InSpectrum(cands: seq<SpectralPeak>, binCount: int)
  {
    forall k :: 0 <= k < |cands| ==> 0 <= cands[k].binIndex < binCount
  }

  /** The region built around an accepted peak. */
  function RegionFor(spectrum: seq<real>, sampleRate: real, p: SpectralPeak): VoiceRegion
    requires 0 <= p.binIndex < |spectrum|
  {
    var lo := WindowLow(p);
    var hi := WindowHigh(p, |spectrum|);
    VoiceRegion(lo, hi, p.binIndex,
      FFT.FrequencyForBin(lo, sampleRate), FFT.FrequencyForBin(hi, sampleRate),
      FFT.FrequencyForBin(p.binIndex, sampleRate), NormalizedShape(spectrum[lo..hi + 1]))
  }

  /** A region's window lies inside the spectrum and around its peak, and its
      template has one entry per bin of the window. */
  predicate WellFormed(r: VoiceRegion, binCount: int)
  {
    0 <= r.lowBin <= r.peakBin <= r.highBin < binCount && |r.shape| == r.highBin - r.lowBin + 1
  }

  lemma RegionForProperties(spectrum: seq<real>, sampleRate: real, p: SpectralPeak)
    requires 0 <= p.binIndex < |spectrum|
    ensures var r := RegionFor(spectrum, sampleRate, p);
      && WellFormed(r, |spectrum|) && r.peakBin == p.binIndex
      && r.lowBin == WindowLow(p) && r.highBin == WindowHigh(p, |spectrum|)
      && r.shape == NormalizedShape(spectrum[r.lowBin..r.highBin + 1])
    ensures var r := RegionFor(spectrum, sampleRate, p);
      0.0 <= sampleRate ==> r.lowFreq <= r.centroid <= r.highFreq
  {
    var r := RegionFor(spectrum, sampleRate, p);
    if 0.0 <= sampleRate {
      FFT.FrequencyForBinMonotone(r.lowBin, r.peakBin, sampleRate);
      FFT.FrequencyForBinMonotone(r.peakBin, r.highBin, sampleRate);
    }
  }

  lemma RegionForIs(spectrum: seq<real>, sampleRate: real, p: SpectralPeak, lo: int, hi: int, shape: seq<real>)
    requires 0 <= p.binIndex < |spectrum| && lo == WindowLow(p) && hi == WindowHigh(p, |spectrum|)
    requires 0 <= lo <= hi < |spectrum| && shape == NormalizedShape(spectrum[lo..hi + 1])
    ensures RegionFor(spectrum, sampleRate, p) == VoiceRegion(lo, hi, p.binIndex,
      FFT.FrequencyForBin(lo, sampleRate), FFT.FrequencyForBin(hi, sampleRate),
      FFT.FrequencyForBin(p.binIndex, sampleRate), shape)
  {
  }

  /** The greedy selection loop over the candidates, with the claimed bins `used`
      and the regions accepted so far. */
  function Select(cands: seq<SpectralPeak>, spectrum: seq<real>, sampleRate: real,
                  used: set<int>, regions: seq<VoiceRegion>): seq<VoiceRegion>
    requires InSpectrum(cands, |spectrum|)
    decreases |cands|
  {
    if cands == [] then regions
    else
      var p := cands[0];
      var lo := WindowLow(p);
      var hi := WindowHigh(p, |spectrum|);
      if p.binIndex in used || Overlaps(used, lo, hi) then
        Select(cands[1..], spectrum, sampleRate, used, regions)
      else
        Select(cands[1..], spectrum, sampleRate, used + Window(lo, hi), regions + [RegionFor(spectrum, sampleRate, p)])
  }

  /** One step of the selection, for the loop that performs it. */
  lemma SelectStep(cands: seq<SpectralPeak>, spectrum: seq<real>, sampleRate: real,
                   used: set<int>, regions: seq<VoiceRegion>)
    requires cands != [] && InSpectrum(cands, |spectrum|)
    ensures InSpectrum(cands[1..], |spectrum|)
    ensures var p := cands[0];
      Select(cands, spectrum, sampleRate, used, regions)
      == if p.binIndex in used || Overlaps(used, WindowLow(p), WindowHigh(p, |spectrum|))
         then Select(cands[1..], spectrum, sampleRate, used, regions)
         else Select(cands[1..], spectrum, sampleRate, used + Window(WindowLow(p), WindowHigh(p, |spectrum|)),
                     regions + [RegionFor(spectrum, sampleRate, p)])
  {
    assert InSpectrum(cands[1..], |spectrum|);
  }

  /** Two windows share no bin. */
  predicate Disjoint(a: VoiceRegion, b: VoiceRegion)
  {
    a.highBin < b.lowBin || b.highBin < a.lowBin
  }

  ghost predicate WindowsDisjoint(regions: seq<VoiceRegion>)
  {
    forall a, b :: a in regions && b in regions && a != b ==> Disjoint(a, b)
  }

  /** What the selection keeps true of the regions it has accepted: well-formed,
      pairwise disjoint, no region twice, and every window claimed in `used`. */
  ghost predicate Accepted(regions: seq<VoiceRegion>, used: set<int>, binCount: int)
  {
    && WindowsDisjoint(regions) && Distinct(regions)
    && (forall r :: r in regions ==> WellFormed(r, binCount) && Window(r.lowBin, r.highBin) <= used)
  }

  /** A window with no claimed bin is disjoint from, and different from, every
      accepted region. */
  lemma FreshWindow(regions: seq<VoiceRegion>, used: set<int>, binCount: int, r: VoiceRegion)
    requires Accepted(regions, used, binCount) && WellFormed(r, binCount)
    requires !Overlaps(used, r.lowBin, r.highBin)
    ensures Accepted(regions + [r], used + Window(r.lowBin, r.highBin), binCount)
  {
    var next := regions + [r];
    assert r.lowBin !in used by {
      assert !(r.lowBin <= r.lowBin <= r.highBin && r.lowBin in used);
    }
    forall a | a in regions ensures Disjoint(a, r) && a != r {
      WindowMembers(a.lowBin, a.highBin);
      assert a.lowBin in used;
      var b := MaxInt(a.lowBin, r.lowBin);
      if b <= a.highBin {
        assert b in used;
        assert !(r.lowBin <= b <= r.highBin);
      }
    }
    forall i, j | 0 <= i < j < |next| ensures next[i] != next[j] {
      if j == |regions| {
        assert next[i] in regions;
      } else {
        assert next[i] == regions[i] && next[j] == regions[j];
      }
    }
    forall a, b | a in next && b in next && a != b ensures Disjoint(a, b) {
      if a != r && b != r {
        assert a in regions && b in regions;
      }
    }
  }

  lemma {:induction false} SelectProperties(cands: seq<SpectralPeak>, spectrum: seq<real>, sampleRate: real,
                                           used: set<int>, regions: seq<VoiceRegion>)
    requires InSpectrum(cands, |spectrum|) && Accepted(regions, used, |spectrum|)
    ensures var result := Select(cands, spectrum, sampleRate, used, regions);
      && WindowsDisjoint(result) && Distinct(result) && |result| <= |regions| + |cands|
      && forall r :: r in result ==>
           r in regions || exists p :: p in cands && r == RegionFor(spectrum, sampleRate, p)
    decreases |cands|
  {
    if cands != [] {
      var p := cands[0];
      var lo := WindowLow(p);
      var hi := WindowHigh(p, |spectrum|);
      assert InSpectrum(cands[1..], |spectrum|);
      if p.binIndex in used || Overlaps(used, lo, hi) {
        SelectProperties(cands[1..], spectrum, sampleRate, used, regions);
        ForwardMembers(cands, spectrum, sampleRate, Select(cands, spectrum, sampleRate, used, regions), regions, regions);
      } else {
        var r := RegionFor(spectrum, sampleRate, p);
        RegionForProperties(spectrum, sampleRate, p);
        FreshWindow(regions, used, |spectrum|, r);
        SelectProperties(cands[1..], spectrum, sampleRate, used + Window(lo, hi), regions + [r]);
        ForwardMembers(cands, spectrum, sampleRate, Select(cands, spectrum, sampleRate, used, regions), regions + [r], regions);
      }
    }
  }

  /** Bookkeeping for one step of `SelectProperties`: provenance from the rest of
      the candidates, or from the accepted head, is provenance from all of them. */
  lemma ForwardMembers(cands: seq<SpectralPeak>, spectrum: seq<real>, sampleRate: real,
                       result: seq<VoiceRegion>, mid: seq<VoiceRegion>, regions: seq<VoiceRegion>)
    requires cands != [] && InSpectrum(cands, |spectrum|)
    requires forall r :: r in mid ==> r in regions || r == RegionFor(spectrum, sampleRate, cands[0])
    requires forall r :: r in result ==>
      r in mid || exists p :: p in cands[1..] && r == RegionFor(spectrum, sampleRate, p)
    ensures forall r :: r in result ==>
      r in regions || exists p :: p in cands && r == RegionFor(spectrum, sampleRate, p)
  {
    forall r | r in result && r !in regions
      ensures exists p :: p in cands && r == RegionFor(spectrum, sampleRate, p)
    {
      if r in mid {
        assert cands[0] in cands;
      } else {
        var p :| p in cands[1..] && r == RegionFor(spectrum, sampleRate, p);
        assert p in cands;
      }
    }
  }

  function Centroid(r: VoiceRegion): real
  {
    r.centroid
  }

  /** `identifyVoiceRegions`: peaks of the mean spectrum, candidates, greedy
      selection, then ascending centroid order. */
  function VoiceRegionsOf(meanSpectrum: seq<real>, sampleRate: real): seq<VoiceRegion>
    requires 4 <= |meanSpectrum|
  {
    var cands := Candidates(Peaks(meanSpectrum, sampleRate));
    CandidatesInSpectrum(meanSpectrum, sampleRate);
    SortBy(Select(cands, meanSpectrum, sampleRate, {}, []), Centroid)
  }

  lemma CandidatesInSpectrum(meanSpectrum: seq<real>, sampleRate: real)
    requires 4 <= |meanSpectrum|
    ensures InSpectrum(Candidates(Peaks(meanSpectrum, sampleRate)), |meanSpectrum|)
    ensures forall c :: c in Candidates(Peaks(meanSpectrum, sampleRate)) ==> 2 <= c.binIndex < |meanSpectrum| - 2
  {
    var cands := Candidates(Peaks(meanSpectrum, sampleRate));
    CandidatesProperties(Peaks(meanSpectrum, sampleRate));
    PeaksProperties(meanSpectrum, sampleRate);
    forall k | 0 <= k < |cands| ensures 0 <= cands[k].binIndex < |meanSpectrum| {
      assert cands[k] in cands;
    }
  }

  /** The regions: at most eight; pairwise disjoint bin windows; each one built
      around a candidate, that is one of the eight strongest peaks above 0.05; each
      well-formed; ordered by centroid. */
  lemma VoiceRegionsProperties(meanSpectrum: seq<real>, sampleRate: real)
    requires 4 <= |meanSpectrum|
    ensures var regions := VoiceRegionsOf(meanSpectrum, sampleRate);
      && |regions| <= MaxRegions
      && (forall i, j :: 0 <= i < j < |regions| ==> Disjoint(regions[i], regions[j]))
      && (forall r :: r in regions ==> WellFormed(r, |meanSpectrum|))
      && (forall r :: r in regions ==>
            exists p :: p in Candidates(Peaks(meanSpectrum, sampleRate))
              && 0 <= p.binIndex < |meanSpectrum| && r == RegionFor(meanSpectrum, sampleRate, p))
      && SortedBy(regions, Centroid)
  {
    var cands := Candidates(Peaks(meanSpectrum, sampleRate));
    CandidatesInSpectrum(meanSpectrum, sampleRate);
    var selected := Select(cands, meanSpectrum, sampleRate, {}, []);
    SelectProperties(cands, meanSpectrum, sampleRate, {}, []);
    var regions := SortBy(selected, Centroid);
    SortByPermutes(selected, Centroid);
    SortByMembers(selected, Centroid);
    SortBySorted(selected, Centroid);
    SortByDistinct(selected, Centroid);
    forall i, j | 0 <= i < j < |regions| ensures Disjoint(regions[i], regions[j]) {
      assert regions[i] in selected && regions[j] in selected;
    }
    forall r | r in regions
      ensures WellFormed(r, |meanSpectrum|)
      ensures exists p :: p in cands && 0 <= p.binIndex < |meanSpectrum| && r == RegionFor(meanSpectrum, sampleRate, p)
    {
      var p :| p in cands && r == RegionFor(meanSpectrum, sampleRate, p);
      RegionForProperties(meanSpectrum, sampleRate, p);
    }
  }

  /** Every region is built around some peak of the spectrum. */
  lemma VoiceRegionsProvenance(meanSpectrum: seq<real>, sampleRate: real)
    requires 4 <= |meanSpectrum|
    ensures forall r :: r in VoiceRegionsOf(meanSpectrum, sampleRate) ==>
      exists p: SpectralPeak :: 0 <= p.binIndex < |meanSpectrum| && r == RegionFor(meanSpectrum, sampleRate, p)
  {
    var cands := Candidates(Peaks(meanSpectrum, sampleRate));
    CandidatesInSpectrum(meanSpectrum, sampleRate);
    var selected := Select(cands, meanSpectrum, sampleRate, {}, []);
    SelectProperties(cands, meanSpectrum, sampleRate, {}, []);
    SortByMembers(selected, Centroid);
    forall r | r in VoiceRegionsOf(meanSpectrum, sampleRate)
      ensures exists p: SpectralPeak :: 0 <= p.binIndex < |meanSpectrum| && r == RegionFor(meanSpectrum, sampleRate, p)
    {
      assert r in selected;
      var p :| p in cands && r == RegionFor(meanSpectrum, sampleRate, p);
    }
  }

  /** With a non-negative sample rate every region reports `lowFreq <= centroid <=
      highFreq`. */
  lemma VoiceRegionsFrequencies(meanSpectrum: seq<real>, sampleRate: real)
    requires 4 <= |meanSpectrum| && 0.0 <= sampleRate
    ensures forall r :: r in VoiceRegionsOf(meanSpectrum, sampleRate) ==> r.lowFreq <= r.centroid <= r.highFreq
  {
    VoiceRegionsProvenance(meanSpectrum, sampleRate);
    forall r | r in VoiceRegionsOf(meanSpectrum, sampleRate) ensures r.lowFreq <= r.centroid <= r.highFreq {
      var p: SpectralPeak :| 0 <= p.binIndex < |meanSpectrum| && r == RegionFor(meanSpectrum, sampleRate, p);
      RegionForProperties(meanSpectrum, sampleRate, p);
    }
  }

  /** Over a non-negative spectrum every template lies in [0,1]. */
  lemma VoiceRegionsShapes(meanSpectrum: seq<real>, sampleRate: real)
    requires 4 <= |meanSpectrum|
    requires forall k :: 0 <= k < |meanSpectrum| ==> 0.0 <= meanSpectrum[k]
    ensures forall r, k :: r in VoiceRegionsOf(meanSpectrum, sampleRate) && 0 <= k < |r.shape| ==>
      0.0 <= r.shape[k] <= 1.0
  {
    VoiceRegionsProvenance(meanSpectrum, sampleRate);
    forall r | r in VoiceRegionsOf(meanSpectrum, sampleRate)
      ensures forall k :: 0 <= k < |r.shape| ==> 0.0 <= r.shape[k] <= 1.0
    {
      var p: SpectralPeak :| 0 <= p.binIndex < |meanSpectrum| && r == RegionFor(meanSpectrum, sampleRate, p);
      RegionShapeRange(meanSpectrum, sampleRate, p);
    }
  }

  lemma RegionShapeRange(spectrum: seq<real>, sampleRate: real, p: SpectralPeak)
    requires 0 <= p.binIndex < |spectrum|
    requires forall k :: 0 <= k < |spectrum| ==> 0.0 <= spectrum[k]
    ensures forall k :: 0 <= k < |RegionFor(spectrum, sampleRate, p).shape| ==>
      0.0 <= RegionFor(spectrum, sampleRate, p).shape[k] <= 1.0
  {
    var r := RegionFor(spectrum, sampleRate, p);
    RegionForProperties(spectrum, sampleRate, p);
    var window := spectrum[r.lowBin..r.highBin + 1];
    assert forall k :: 0 <= k < |window| ==> window[k] == spectrum[r.lowBin + k];
    NormalizedShapeRange(window);
  }

  /** The overlap test: scans the window and stops at the first claimed bin. */
  method HasClaimedBin(used: set<int>, lowBin: int, highBin: int) returns (overlaps: bool)
    ensures overlaps == Overlaps(used, lowBin, highBin)
  {
    overlaps := false;
    var bin := lowBin;
    while bin <= highBin
      invariant lowBin <= bin || highBin < lowBin
      invariant forall b :: lowBin <= b < bin ==> b !in used
      decreases highBin - bin
    {
      if bin in used {
        overlaps := true;
        break;
      }
      bin := bin + 1;
    }
  }

  /** Marks every bin of the window as claimed. */
  method ClaimBins(used: set<int>, lowBin: int, highBin: int) returns (claimed: set<int>)
    ensures claimed == used + Window(lowBin, highBin)
  {
    claimed := used;
    var bin := lowBin;
    while bin <= highBin
      invariant lowBin <= bin && (bin <= highBin + 1 || bin == lowBin)
      invariant claimed == used + Window(lowBin, bin - 1)
      decreases highBin - bin
    {
      assert Window(lowBin, bin) == Window(lowBin, bin - 1) + {bin};
      claimed := claimed + {bin};
      bin := bin + 1;
    }
    if highBin < lowBin {
      assert Window(lowBin, bin - 1) == {} == Window(lowBin, highBin);
    } else {
      assert bin - 1 == highBin;
    }
  }

  /** Copies the window out of the spectrum while tracking its maximum, then
      divides by that maximum when it is positive. */
  method ExtractShape(spectrum: seq<real>, lowBin: int, highBin: int) returns (shape: seq<real>)
    requires 0 <= lowBin <= highBin < |spectrum|
    ensures shape == NormalizedShape(spectrum[lowBin..highBin + 1])
  {
    shape := [];
    var maxVal := 0.0;
    var bin := lowBin;
    while bin <= highBin
      invariant lowBin <= bin <= highBin + 1
      invariant shape == spectrum[lowBin..bin] && maxVal == MaxOrZero(shape)
    {
      MaxOrZeroAppend(shape, spectrum[bin]);
      shape := shape + [spectrum[bin]];
      maxVal := Max(maxVal, spectrum[bin]);
      bin := bin + 1;
    }
    assert shape == spectrum[lowBin..highBin + 1];
    if maxVal > 0.0 {
      shape := ScaledBy(shape, maxVal);
    }
  }

  /** `identifyVoiceRegions` as the loop it is: the claimed bins are a set that the
      loop grows, and the accepted regions a list it appends to. */
  method IdentifyVoiceRegions(meanSpectrum: seq<real>, sampleRate: real) returns (regions: seq<VoiceRegion>)
    requires 4 <= |meanSpectrum|
    ensures regions == VoiceRegionsOf(meanSpectrum, sampleRate)
  {
    var peaks := FindPeaks(meanSpectrum, sampleRate);
    var cands := Candidates(peaks);
    CandidatesInSpectrum(meanSpectrum, sampleRate);
    var selected: seq<VoiceRegion> := [];
    var usedBins: set<int> := {};
    var k := 0;
    while k < |cands|
      invariant 0 <= k <= |cands| && InSpectrum(cands[k..], |meanSpectrum|)
      invariant Select(cands[k..], meanSpectrum, sampleRate, usedBins, selected)
             == Select(cands, meanSpectrum, sampleRate, {}, [])
    {
      var peak := cands[k];
      SelectStep(cands[k..], meanSpectrum, sampleRate, usedBins, selected);
      assert cands[k..][0] == peak && cands[k..][1..] == cands[k + 1..];
      k := k + 1;
      if peak.binIndex in usedBins {
        continue;
      }
      var lowBin := MaxInt(0, peak.binIndex - peak.bandwidth - 2);
      var highBin := MinInt(|meanSpectrum| - 1, peak.binIndex + peak.bandwidth + 2);
      var overlaps := HasClaimedBin(usedBins, lowBin, highBin);
      if overlaps {
        continue;
      }
      usedBins := ClaimBins(usedBins, lowBin, highBin);
      var shape := ExtractShape(meanSpectrum, lowBin, highBin);
      var region := VoiceRegion(lowBin, highBin, peak.binIndex,
        FFT.FrequencyForBin(lowBin, sampleRate), FFT.FrequencyForBin(highBin, sampleRate),
        FFT.FrequencyForBin(peak.binIndex, sampleRate), shape);
      RegionForIs(meanSpectrum, sampleRate, peak, lowBin, highBin, shape);
      selected := selected + [region];
    }
    regions := SortBy(selected, Centroid);
  }
}
