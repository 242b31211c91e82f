/** The web client's continuous voice tracker, one frame at a time: in a quiet
    frame every voice fades; otherwise the five strongest local maxima of the
    spectrum are taken strongest first, each claims the nearest voice not yet
    claimed within six bins or founds a new voice while fewer than five exist,
    and every voice left unclaimed fades. A voice is dropped once it is faint and
    has not been heard for 900 frames. */
module FeatureVoices {
  import opened Numeric
  import opened FeatureBands

  const MaxVoices: nat := 5
  const VoiceTimeoutFrames: int := 900
  /** Below this RMS level the frame counts as quiet. */
  const QuietRms: real := 0.008
  const PeakThreshold: real := 0.18
  /** A peak claims a voice only when strictly closer than this many bins. */
  const MatchRadius: int := 6
  /** An unclaimed peak founds a voice only above this energy. */
  const CreateEnergy: real := 0.24
  /** A voice whose smoothed energy is above this level is never dropped. */
  const KeepEnergy: real := 0.015
  const QuietSmoothedDecay: real := 0.985
  const QuietEnergyDecay: real := 0.96
  const IdleSmoothedDecay: real := 0.94
  const IdleEnergyDecay: real := 0.92
  /** A claimed voice's smoothed energy moves this fraction of the way to the peak. */
  const EnergyFollow: real := 0.2

  /** One tracked voice; `bandIndex` and `color` come from the band of the bin
      that founded it. */
  datatype TrackedVoice = TrackedVoice(
    id: nat,
    binCenter: int,
    energy: real,
    smoothedEnergy: real,
    age: nat,
    bandIndex: nat,
    color: Color,
    lastActiveFrame: int)

  datatype Peak = Peak(bin: int, energy: real)

  // ---------------------------------------------------------------------------
  // Peaks

  /** Bin `i` is above the threshold and strictly above its neighbours at offsets
      1 and 2. */
  predicate IsLocalPeak(s: seq<real>, i: int)
    requires 2 <= i < |s| - 2
  {
    s[i] > PeakThreshold && s[i] > s[i - 1] && s[i] > s[i + 1] && s[i] > s[i - 2] && s[i] > s[i + 2]
  }

  /** The local peaks among bins 2 up to, not including, `n`, in bin order. */
  function LocalPeaksBelow(s: seq<real>, n: int): seq<Peak>
    requires n <= |s| - 2
    decreases n
  {
    if n <= 2 then []
    else LocalPeaksBelow(s, n - 1) + (if IsLocalPeak(s, n - 1) then [Peak(n - 1, s[n - 1])] else [])
  }

  /** The scan `for (i = 2; i < spectrum.length - 2; i++)`; a spectrum of fewer
      than five bins has no peaks. */
  function LocalPeaks(s: seq<real>): seq<Peak>
  {
    LocalPeaksBelow(s, |s| - 2)
  }

  lemma LocalPeaksBelowProperties(s: seq<real>, n: int)
    requires n <= |s| - 2
    ensures forall p :: p in LocalPeaksBelow(s, n) ==>
      2 <= p.bin < n && IsLocalPeak(s, p.bin) && p.energy == s[p.bin]
    ensures forall i :: 2 <= i < n && IsLocalPeak(s, i) ==> Peak(i, s[i]) in LocalPeaksBelow(s, n)
  {
    LocalPeaksSound(s, n);
    LocalPeaksComplete(s, n);
  }

  lemma {:induction false} LocalPeaksSound(s: seq<real>, n: int)
    requires n <= |s| - 2
    ensures forall p :: p in LocalPeaksBelow(s, n) ==>
      2 <= p.bin < n && IsLocalPeak(s, p.bin) && p.energy == s[p.bin]
    decreases n
  {
    if n > 2 {
      LocalPeaksSound(s, n - 1);
      var prev := LocalPeaksBelow(s, n - 1);
      assert forall p :: p in LocalPeaksBelow(s, n) ==> p in prev || p == Peak(n - 1, s[n - 1]);
    }
  }

  lemma {:induction false} LocalPeaksComplete(s: seq<real>, n: int)
    requires n <= |s| - 2
    ensures forall i :: 2 <= i < n && IsLocalPeak(s, i) ==> Peak(i, s[i]) in LocalPeaksBelow(s, n)
    decreases n
  {
    if n > 2 {
      LocalPeaksComplete(s, n - 1);
      var prev := LocalPeaksBelow(s, n - 1);
      assert forall p :: p in prev ==> p in LocalPeaksBelow(s, n);
    }
  }

  /** Sort key that puts the strongest peak first. */
  function Weakness(p: Peak): real
  {
    -p.energy
  }

  /** `peaks.sort((a, b) => b.energy - a.energy).slice(0, maxVoices)`. */
  function TopPeaks(s: seq<real>): (top: seq<Peak>)
    ensures |top| <= MaxVoices
  {
    var ranked := SortBy(LocalPeaks(s), Weakness);
    ranked[..MinInt(|ranked|, MaxVoices)]
  }

  /** Only local maxima above the threshold are considered, at most five, strongest
      first; a local maximum is left out only when five at least as strong ones
      were taken. */
  lemma TopPeaksProperties(s: seq<real>)
    ensures forall p :: p in TopPeaks(s) ==>
      2 <= p.bin < |s| - 2 && IsLocalPeak(s, p.bin) && p.energy == s[p.bin]
    ensures forall a, b :: 0 <= a < b < |TopPeaks(s)| ==> TopPeaks(s)[b].energy <= TopPeaks(s)[a].energy
    ensures forall i :: 2 <= i < |s| - 2 && IsLocalPeak(s, i) && Peak(i, s[i]) !in TopPeaks(s) ==>
      |TopPeaks(s)| == MaxVoices && forall p :: p in TopPeaks(s) ==> s[i] <= p.energy
  {
    TopPeaksSound(s);
    TopPeaksRanked(s);
    TopPeaksOmitted(s);
  }

  lemma TopPeaksSound(s: seq<real>)
    ensures forall p :: p in TopPeaks(s) ==>
      2 <= p.bin < |s| - 2 && IsLocalPeak(s, p.bin) && p.energy == s[p.bin]
  {
    var peaks := LocalPeaks(s);
    var ranked := SortBy(peaks, Weakness);
    LocalPeaksSound(s, |s| - 2);
    SortByMembers(peaks, Weakness);
    forall p | p in TopPeaks(s) ensures p in peaks {
      assert p in ranked;
    }
  }

  lemma TopPeaksRanked(s: seq<real>)
    ensures forall a, b :: 0 <= a < b < |TopPeaks(s)| ==> TopPeaks(s)[b].energy <= TopPeaks(s)[a].energy
  {
    var peaks := LocalPeaks(s);
    var ranked := SortBy(peaks, Weakness);
    var top := TopPeaks(s);
    SortBySorted(peaks, Weakness);
    forall a, b | 0 <= a < b < |top| ensures top[b].energy <= top[a].energy {
      assert Weakness(ranked[a]) <= Weakness(ranked[b]);
    }
  }

  lemma TopPeaksOmitted(s: seq<real>)
    ensures forall i :: 2 <= i < |s| - 2 && IsLocalPeak(s, i) && Peak(i, s[i]) !in TopPeaks(s) ==>
      |TopPeaks(s)| == MaxVoices && forall p :: p in TopPeaks(s) ==> s[i] <= p.energy
  {
    var peaks := LocalPeaks(s);
    var ranked := SortBy(peaks, Weakness);
    var top := TopPeaks(s);
    LocalPeaksComplete(s, |s| - 2);
    SortByMembers(peaks, Weakness);
    SortBySorted(peaks, Weakness);
    forall i | 2 <= i < |s| - 2 && IsLocalPeak(s, i) && Peak(i, s[i]) !in top
      ensures |top| == MaxVoices && forall p :: p in top ==> s[i] <= p.energy
    {
      assert Peak(i, s[i]) in ranked;
      var j :| 0 <= j < |ranked| && ranked[j] == Peak(i, s[i]);
      assert MaxVoices <= j;
      forall p | p in top ensures s[i] <= p.energy {
        var k :| 0 <= k < |top| && top[k] == p;
        assert Weakness(ranked[k]) <= Weakness(ranked[j]);
      }
    }
  }

  // ---------------------------------------------------------------------------
  // Matching a peak to a voice

  function Distance(v: TrackedVoice, bin: int): nat
  {
    Abs(v.binCenter - bin)
  }

  /** The nearest-voice scan over the first `n` voices: the index of the best voice
      so far and its distance, starting from no voice at distance 6. Voices
      already claimed this frame are skipped, and only a strictly smaller
      distance replaces the best, so ties go to the earlier voice. */
  function NearestBelow(voices: seq<TrackedVoice>, claimed: set<nat>, bin: int, n: nat): (r: (Option<nat>, int))
    requires n <= |voices|
    ensures r.0.Some? ==> r.0.value < n
  {
    if n == 0 then (None, MatchRadius)
    else
      var best := NearestBelow(voices, claimed, bin, n - 1);
      if voices[n - 1].id !in claimed && Distance(voices[n - 1], bin) < best.1
      then (Some(n - 1), Distance(voices[n - 1], bin))
      else best
  }

  /** The voice a peak at `bin` claims, if any. */
  function Nearest(voices: seq<TrackedVoice>, claimed: set<nat>, bin: int): (r: Option<nat>)
    ensures r.Some? ==> r.value < |voices|
  {
    NearestBelow(voices, claimed, bin, |voices|).0
  }

  lemma {:induction false} NearestBelowProperties(voices: seq<TrackedVoice>, claimed: set<nat>, bin: int, n: nat)
    requires n <= |voices|
    ensures var r := NearestBelow(voices, claimed, bin, n);
      && r.1 <= MatchRadius
      && (r.0.None? ==> r.1 == MatchRadius)
      && (r.0.Some? ==> r.1 < MatchRadius)
      && (r.0.Some? ==> voices[r.0.value].id !in claimed && Distance(voices[r.0.value], bin) == r.1)
      && (forall j :: 0 <= j < n && voices[j].id !in claimed ==> r.1 <= Distance(voices[j], bin))
      && (r.0.Some? ==> forall j :: 0 <= j < r.0.value && voices[j].id !in claimed ==> r.1 < Distance(voices[j], bin))
  {
    if n > 0 {
      NearestBelowProperties(voices, claimed, bin, n - 1);
    }
  }

  /** A peak claims no voice exactly when every unclaimed voice is six or more bins
      away; otherwise it claims an unclaimed voice strictly within six bins, no
      unclaimed voice is nearer, and every earlier unclaimed voice is farther. */
  lemma NearestProperties(voices: seq<TrackedVoice>, claimed: set<nat>, bin: int)
    ensures Nearest(voices, claimed, bin).None? <==>
      forall j :: 0 <= j < |voices| && voices[j].id !in claimed ==> MatchRadius <= Distance(voices[j], bin)
    ensures Nearest(voices, claimed, bin).Some? ==>
      var i := Nearest(voices, claimed, bin).value;
      && voices[i].id !in claimed && Distance(voices[i], bin) < MatchRadius
      && (forall j :: 0 <= j < |voices| && voices[j].id !in claimed ==> Distance(voices[i], bin) <= Distance(voices[j], bin))
      && (forall j :: 0 <= j < i && voices[j].id !in claimed ==> Distance(voices[i], bin) < Distance(voices[j], bin))
  {
    NearestBelowProperties(voices, claimed, bin, |voices|);
  }

  /** A claimed voice: its centre moves 15% of the way to the peak, rounded as
      `Math.round` does; its smoothed energy 20% of the way to the peak's; it ages
      by one frame and is marked heard now. */
  function Refreshed(v: TrackedVoice, peak: Peak, frame: int): TrackedVoice
  {
    v.(binCenter := RoundHalfUp(v.binCenter as real * 0.85 + peak.bin as real * 0.15),
       energy := peak.energy,
       smoothedEnergy := Lerp(v.smoothedEnergy, peak.energy, EnergyFollow),
       age := v.age + 1,
       lastActiveFrame := frame)
  }

  /** The new centre lies between the old centre and the peak's bin, so a voice
      never leaves the range its peaks came from. */
  lemma RefreshedCenterBetween(v: TrackedVoice, peak: Peak, frame: int)
    ensures MinInt(v.binCenter, peak.bin) <= Refreshed(v, peak, frame).binCenter <= MaxInt(v.binCenter, peak.bin)
  {
    var a := v.binCenter as real;
    var b := peak.bin as real;
    var x := a * 0.85 + b * 0.15;
    assert x == a + (b - a) * 0.15;
    var lo := MinInt(v.binCenter, peak.bin) as real;
    var hi := MaxInt(v.binCenter, peak.bin) as real;
    assert lo <= x <= hi;
  }

  /** A voice founded by a peak, in the band of the peak's bin. */
  function Created(id: nat, peak: Peak, frame: int, table: seq<real>): TrackedVoice
  {
    var band := BandForBin(peak.bin, table);
    TrackedVoice(id, peak.bin, peak.energy, peak.energy, 0, band, Bands[band].color, frame)
  }

  /** The matching loop's state: the voices, the ids claimed this frame and the
      next fresh id. */
  datatype MatchState = MatchState(voices: seq<TrackedVoice>, claimed: set<nat>, nextId: nat)

  /** One peak: claim the nearest voice, or else found a voice if there is room and
      the peak is strong enough, or else nothing. */
  function MatchStep(st: MatchState, peak: Peak, frame: int, table: seq<real>): MatchState
  {
    match Nearest(st.voices, st.claimed, peak.bin)
    case Some(i) =>
      MatchState(st.voices[i := Refreshed(st.voices[i], peak, frame)], st.claimed + {st.voices[i].id}, st.nextId)
    case None =>
      if |st.voices| < MaxVoices && peak.energy > CreateEnergy
      then MatchState(st.voices + [Created(st.nextId, peak, frame, table)], st.claimed, st.nextId + 1)
      else st
  }

  /** The peaks handled in order. */
  function MatchPeaks(peaks: seq<Peak>, st: MatchState, frame: int, table: seq<real>): MatchState
  {
    if peaks == [] then st
    else MatchStep(MatchPeaks(peaks[..|peaks| - 1], st, frame, table), peaks[|peaks| - 1], frame, table)
  }

  // ---------------------------------------------------------------------------
  // Fading and dropping

  /** `smoothedEnergy > 0.015 || frameCount - lastActiveFrame < 900`: a voice is
      dropped iff its smoothed energy is at most 0.015 and it has not been heard
      for 900 frames. */
  predicate Survives(v: TrackedVoice, frame: int)
  {
    v.smoothedEnergy > KeepEnergy || frame - v.lastActiveFrame < VoiceTimeoutFrames
  }

  function Hushed(v: TrackedVoice): TrackedVoice
  {
    v.(smoothedEnergy := v.smoothedEnergy * QuietSmoothedDecay, energy := v.energy * QuietEnergyDecay)
  }

  function Idle(v: TrackedVoice): TrackedVoice
  {
    v.(smoothedEnergy := v.smoothedEnergy * IdleSmoothedDecay, energy := v.energy * IdleEnergyDecay)
  }

  /** Every voice faded as in a quiet frame. */
  function HushedAll(voices: seq<TrackedVoice>): (r: seq<TrackedVoice>)
    ensures |r| == |voices|
  {
    seq(|voices|, i requires 0 <= i < |voices| => Hushed(voices[i]))
  }

  /** Every voice not claimed this frame faded. */
  function SettledAll(voices: seq<TrackedVoice>, claimed: set<nat>): (r: seq<TrackedVoice>)
    ensures |r| == |voices|
  {
    seq(|voices|, i requires 0 <= i < |voices| => if voices[i].id in claimed then voices[i] else Idle(voices[i]))
  }

  function Survivors(voices: seq<TrackedVoice>, frame: int): seq<TrackedVoice>
  {
    Filter(voices, (v: TrackedVoice) => Survives(v, frame))
  }

  /** `updateVoices`: the voices and next id after one frame. */
  function VoicesAfter(voices: seq<TrackedVoice>, nextId: nat, spectrum: seq<real>, rms: real, frame: int, table: seq<real>): (seq<TrackedVoice>, nat)
  {
    if rms < QuietRms then (Survivors(HushedAll(voices), frame), nextId)
    else
      var st := MatchPeaks(TopPeaks(spectrum), MatchState(voices, {}, nextId), frame, table);
      (Survivors(SettledAll(st.voices, st.claimed), frame), st.nextId)
  }

  // ---------------------------------------------------------------------------
  // Invariants

  /** Ids strictly increase along the list. */
  ghost predicate IdsAscending(voices: seq<TrackedVoice>)
  {
    forall i, j :: 0 <= i < j < |voices| ==> voices[i].id < voices[j].id
  }

  /** At most five voices, ascending ids below the next fresh one, a valid band,
      and a centre on the spectrum of `bins` bins. */
  ghost predicate Tracked(voices: seq<TrackedVoice>, nextId: nat, bins: int)
  {
    && |voices| <= MaxVoices
    && IdsAscending(voices)
    && forall v :: v in voices ==> v.id < nextId && v.bandIndex < BandCount && 0 <= v.binCenter < bins
  }

  /** During matching, besides `Tracked`: claimed ids were handed out already, and a
      claimed voice was heard this frame. */
  ghost predicate Matching(st: MatchState, frame: int, bins: int)
  {
    && Tracked(st.voices, st.nextId, bins)
    && (forall id :: id in st.claimed ==> id < st.nextId)
    && (forall v :: v in st.voices && v.id in st.claimed ==> v.lastActiveFrame == frame)
  }

  /** One peak claims a voice not claimed before and adds exactly its id, keeping
      the number of voices; or it founds a voice with the next fresh id at the end
      of the list, heard now, when no unclaimed voice is within six bins, fewer
      than five exist and its energy is above 0.24; or it changes nothing. */
  lemma MatchStepEffect(st: MatchState, peak: Peak, frame: int, table: seq<real>)
    ensures var r := MatchStep(st, peak, frame, table);
      match Nearest(st.voices, st.claimed, peak.bin)
      case Some(i) =>
        && st.voices[i].id !in st.claimed && Distance(st.voices[i], peak.bin) < MatchRadius
        && r.claimed == st.claimed + {st.voices[i].id} && r.nextId == st.nextId
        && r.voices == st.voices[i := Refreshed(st.voices[i], peak, frame)]
      case None =>
        && r.claimed == st.claimed
        && (forall j :: 0 <= j < |st.voices| && st.voices[j].id !in st.claimed ==> MatchRadius <= Distance(st.voices[j], peak.bin))
        && (if |st.voices| < MaxVoices && peak.energy > CreateEnergy
            then r.nextId == st.nextId + 1 && r.voices == st.voices + [Created(st.nextId, peak, frame, table)]
              && r.voices[|st.voices|].id == st.nextId && r.voices[|st.voices|].lastActiveFrame == frame
            else r == st)
  {
    NearestProperties(st.voices, st.claimed, peak.bin);
  }

  lemma MatchStepKeeps(st: MatchState, peak: Peak, frame: int, table: seq<real>)
    requires Matching(st, frame, |table|) && 0 <= peak.bin < |table|
    ensures Matching(MatchStep(st, peak, frame, table), frame, |table|)
    ensures st.nextId <= MatchStep(st, peak, frame, table).nextId
  {
    match Nearest(st.voices, st.claimed, peak.bin)
    case Some(i) =>
      ClaimKeeps(st, i, peak, frame, |table|);
    case None =>
      if |st.voices| < MaxVoices && peak.energy > CreateEnergy {
        FoundKeeps(st, Created(st.nextId, peak, frame, table), frame, |table|);
      }
  }

  /** Refreshing voice `i` and claiming its id keeps the matching invariant. */
  lemma ClaimKeeps(st: MatchState, i: nat, peak: Peak, frame: int, bins: int)
    requires Matching(st, frame, bins) && 0 <= peak.bin < bins && i < |st.voices|
    ensures Matching(MatchState(st.voices[i := Refreshed(st.voices[i], peak, frame)], st.claimed + {st.voices[i].id}, st.nextId), frame, bins)
  {
    var vs := st.voices[i := Refreshed(st.voices[i], peak, frame)];
    RefreshedCenterBetween(st.voices[i], peak, frame);
    assert st.voices[i] in st.voices;
    forall w | w in vs ensures w == vs[i] || w in st.voices {
      var k :| 0 <= k < |vs| && vs[k] == w;
      if k != i {
        assert w == st.voices[k];
      }
    }
    assert IdsAscending(vs) by {
      forall a, b | 0 <= a < b < |vs| ensures vs[a].id < vs[b].id {
        assert vs[a].id == st.voices[a].id && vs[b].id == st.voices[b].id;
      }
    }
  }

  /** Appending a voice with the next fresh id, heard now, in a valid band and on
      the spectrum, keeps the matching invariant while there is room. */
  lemma FoundKeeps(st: MatchState, v: TrackedVoice, frame: int, bins: int)
    requires Matching(st, frame, bins) && |st.voices| < MaxVoices
    requires v.id == st.nextId && v.lastActiveFrame == frame && v.bandIndex < BandCount && 0 <= v.binCenter < bins
    ensures Matching(MatchState(st.voices + [v], st.claimed, st.nextId + 1), frame, bins)
  {
    var vs := st.voices + [v];
    assert IdsAscending(vs) by {
      forall a, b | 0 <= a < b < |vs| ensures vs[a].id < vs[b].id {
        if b == |st.voices| {
          assert st.voices[a] in st.voices;
        }
      }
    }
    forall w | w in vs ensures w in st.voices || w == v {
      var k :| 0 <= k < |vs| && vs[k] == w;
      if k < |st.voices| {
        assert w == st.voices[k];
      }
    }
  }

  lemma {:induction false} MatchPeaksKeeps(peaks: seq<Peak>, st: MatchState, frame: int, table: seq<real>)
    requires Matching(st, frame, |table|)
    requires forall p :: p in peaks ==> 0 <= p.bin < |table|
    ensures Matching(MatchPeaks(peaks, st, frame, table), frame, |table|)
    ensures st.nextId <= MatchPeaks(peaks, st, frame, table).nextId
  {
    if peaks != [] {
      var init := peaks[..|peaks| - 1];
      assert forall p :: p in init ==> p in peaks;
      assert peaks[|peaks| - 1] in peaks;
      MatchPeaksKeeps(init, st, frame, table);
      MatchStepKeeps(MatchPeaks(init, st, frame, table), peaks[|peaks| - 1], frame, table);
    }
  }

  /** Exactly the faded voices that are loud enough or were heard within 900
      frames survive, in their original order. */
  lemma SurvivorsProperties(voices: seq<TrackedVoice>, frame: int)
    ensures forall v :: v in Survivors(voices, frame) <==> v in voices && Survives(v, frame)
    ensures |Survivors(voices, frame)| <= |voices|
    ensures IdsAscending(voices) ==> IdsAscending(Survivors(voices, frame))
  {
    FilterMembers(voices, (v: TrackedVoice) => Survives(v, frame));
    if IdsAscending(voices) {
      FilterKeepsOrder(voices, (v: TrackedVoice) => Survives(v, frame), (a: TrackedVoice, b: TrackedVoice) => a.id < b.id);
    }
  }

  /** Fading keeps ids, bands and centres. */
  lemma FadingKeepsTracked(voices: seq<TrackedVoice>, claimed: set<nat>, nextId: nat, bins: int)
    requires Tracked(voices, nextId, bins)
    ensures Tracked(HushedAll(voices), nextId, bins)
    ensures Tracked(SettledAll(voices, claimed), nextId, bins)
  {
    var h := HushedAll(voices);
    var s := SettledAll(voices, claimed);
    forall w | w in h ensures w.id < nextId && w.bandIndex < BandCount && 0 <= w.binCenter < bins {
      var k :| 0 <= k < |h| && h[k] == w;
      assert voices[k] in voices;
    }
    forall w | w in s ensures w.id < nextId && w.bandIndex < BandCount && 0 <= w.binCenter < bins {
      var k :| 0 <= k < |s| && s[k] == w;
      assert voices[k] in voices;
    }
  }

  lemma SurvivorsKeepTracked(voices: seq<TrackedVoice>, nextId: nat, bins: int, frame: int)
    requires Tracked(voices, nextId, bins)
    ensures Tracked(Survivors(voices, frame), nextId, bins)
  {
    SurvivorsProperties(voices, frame);
  }

  /** `updateVoices` keeps at most five voices with ascending ids below the next
      fresh id, in valid bands and centred on the spectrum, and never reuses an
      id; a quiet frame hands out no id and leaves no more voices than before. */
  lemma VoicesAfterKeeps(voices: seq<TrackedVoice>, nextId: nat, spectrum: seq<real>, rms: real, frame: int, table: seq<real>)
    requires Tracked(voices, nextId, |table|) && |spectrum| <= |table|
    ensures var (r, next) := VoicesAfter(voices, nextId, spectrum, rms, frame, table);
      && Tracked(r, next, |table|) && nextId <= next
      && (rms < QuietRms ==> next == nextId && |r| <= |voices|)
  {
    if rms < QuietRms {
      FadingKeepsTracked(voices, {}, nextId, |table|);
      SurvivorsKeepTracked(HushedAll(voices), nextId, |table|, frame);
      SurvivorsProperties(HushedAll(voices), frame);
    } else {
      var st0 := MatchState(voices, {}, nextId);
      TopPeaksProperties(spectrum);
      MatchPeaksKeeps(TopPeaks(spectrum), st0, frame, table);
      var st := MatchPeaks(TopPeaks(spectrum), st0, frame, table);
      FadingKeepsTracked(st.voices, st.claimed, st.nextId, |table|);
      SurvivorsKeepTracked(SettledAll(st.voices, st.claimed), st.nextId, |table|, frame);
    }
  }

  /** In a quiet frame nothing is claimed or founded: every voice fades by 0.985
      (smoothed) and 0.96 (instant), and exactly the faded voices that survive
      remain. */
  lemma QuietFrame(voices: seq<TrackedVoice>, nextId: nat, spectrum: seq<real>, rms: real, frame: int, table: seq<real>)
    requires rms < QuietRms
    ensures var (r, next) := VoicesAfter(voices, nextId, spectrum, rms, frame, table);
      && next == nextId
      && (forall k :: 0 <= k < |voices| ==>
            (Hushed(voices[k]) in r <==> Survives(Hushed(voices[k]), frame)))
      && (forall w :: w in r ==> exists k :: 0 <= k < |voices| && w == Hushed(voices[k]))
  {
    var h := HushedAll(voices);
    SurvivorsProperties(h, frame);
    forall k | 0 <= k < |voices| ensures Hushed(voices[k]) in h {
      assert h[k] == Hushed(voices[k]);
    }
    forall w | w in Survivors(h, frame) ensures exists k :: 0 <= k < |voices| && w == Hushed(voices[k]) {
      var k :| 0 <= k < |h| && h[k] == w;
    }
  }

  /** Fading the unclaimed voices and dropping the faint, long-unheard ones keeps
      every claimed voice that was heard in this frame; an unclaimed voice stays
      exactly when its faded form passes the survival test. */
  lemma SettleProperties(voices: seq<TrackedVoice>, claimed: set<nat>, frame: int)
    requires forall v :: v in voices && v.id in claimed ==> v.lastActiveFrame == frame
    ensures forall k :: 0 <= k < |voices| && voices[k].id in claimed ==> voices[k] in Survivors(SettledAll(voices, claimed), frame)
    ensures forall k :: 0 <= k < |voices| && voices[k].id !in claimed ==>
      (Idle(voices[k]) in Survivors(SettledAll(voices, claimed), frame) <==> Survives(Idle(voices[k]), frame))
  {
    var s := SettledAll(voices, claimed);
    SurvivorsProperties(s, frame);
    forall k | 0 <= k < |voices| && voices[k].id in claimed ensures voices[k] in Survivors(s, frame) {
      assert voices[k] in voices;
      assert s[k] == voices[k] && s[k] in s;
      assert Survives(voices[k], frame);
    }
    forall k | 0 <= k < |voices| && voices[k].id !in claimed
      ensures Idle(voices[k]) in Survivors(s, frame) <==> Survives(Idle(voices[k]), frame)
    {
      assert s[k] == Idle(voices[k]) && s[k] in s;
    }
  }

  /** In a loud frame a voice claimed in it is never dropped in it; a voice left
      unclaimed fades by 0.94 (smoothed) and 0.92 (instant) and stays exactly when
      the faded voice passes the survival test. */
  lemma LoudFrame(voices: seq<TrackedVoice>, nextId: nat, spectrum: seq<real>, rms: real, frame: int, table: seq<real>)
    requires QuietRms <= rms
    requires Tracked(voices, nextId, |table|) && |spectrum| <= |table|
    ensures var st := MatchPeaks(TopPeaks(spectrum), MatchState(voices, {}, nextId), frame, table);
      var r := VoicesAfter(voices, nextId, spectrum, rms, frame, table).0;
      && VoicesAfter(voices, nextId, spectrum, rms, frame, table).1 == st.nextId
      && (forall k :: 0 <= k < |st.voices| && st.voices[k].id in st.claimed ==> st.voices[k] in r)
      && (forall k :: 0 <= k < |st.voices| && st.voices[k].id !in st.claimed ==>
            (Idle(st.voices[k]) in r <==> Survives(Idle(st.voices[k]), frame)))
  {
    var st0 := MatchState(voices, {}, nextId);
    TopPeaksProperties(spectrum);
    MatchPeaksKeeps(TopPeaks(spectrum), st0, frame, table);
    var st := MatchPeaks(TopPeaks(spectrum), st0, frame, table);
    assert VoicesAfter(voices, nextId, spectrum, rms, frame, table) == (Survivors(SettledAll(st.voices, st.claimed), frame), st.nextId);
    SettleProperties(st.voices, st.claimed, frame);
  }
}
