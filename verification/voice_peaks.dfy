/** Peak detection of the calibrated voice tracker: local maxima over two bins on
    each side, each with the number of bins on either side that stay at or above
    half its height, and the ranking of the significant ones, strongest first. */
module VoicePeaks {
  import opened Numeric
  import FFT

  /** A peak must exceed this magnitude. */
  const PeakThreshold: real := 0.02
  /** The bandwidth scan looks at offsets 1 up to, not including, this limit. */
  const BandwidthLimit: nat := 20
  /** Only peaks above this magnitude can found a voice region. */
  const SignificantMagnitude: real := 0.05
  /** At most this many peaks are offered to the region selection. */
  const MaxRegions: nat := 8

  datatype SpectralPeak = SpectralPeak(binIndex: int, frequency: real, magnitude: real, bandwidth: nat)

  /** Bin `i` is strictly above its neighbours at offsets 1 and 2 and above the
      threshold. */
  predicate IsPeakAt(s: seq<real>, i: int)
    requires 2 <= i < |s| - 2
  {
    s[i] > s[i - 1] && s[i] > s[i + 1] && s[i] > s[i - 2] && s[i] > s[i + 2] && s[i] > PeakThreshold
  }

  /** A bin's value for the bandwidth scan; bins outside the spectrum read 0. */
  function BinOrZero(s: seq<real>, k: int): real
  {
    if 0 <= k < |s| then s[k] else 0.0
  }

  /** At offset `j` both neighbours are below half the peak: the scan stops. */
  predicate Narrowed(s: seq<real>, i: int, j: int)
    requires 0 <= i < |s|
  {
    BinOrZero(s, i - j) < s[i] / 2.0 && BinOrZero(s, i + j) < s[i] / 2.0
  }

  /** The bandwidth scan from offset `j` on: the last offset before the first one
      at which both sides have fallen below half, or 19 when none has. */
  function BandwidthFrom(s: seq<real>, i: int, j: nat): nat
    requires 0 <= i < |s| && 1 <= j < BandwidthLimit
    decreases BandwidthLimit - j
  {
    if Narrowed(s, i, j) then j - 1
    else if j == BandwidthLimit - 1 then j
    else BandwidthFrom(s, i, j + 1)
  }

  function Bandwidth(s: seq<real>, i: int): nat
    requires 0 <= i < |s|
  {
    BandwidthFrom(s, i, 1)
  }

  lemma {:induction false} BandwidthFromCharacterised(s: seq<real>, i: int, j: nat)
    requires 0 <= i < |s| && 1 <= j < BandwidthLimit
    ensures j - 1 <= BandwidthFrom(s, i, j) < BandwidthLimit
    ensures forall k :: j <= k <= BandwidthFrom(s, i, j) ==> !Narrowed(s, i, k)
    ensures BandwidthFrom(s, i, j) < BandwidthLimit - 1 ==> Narrowed(s, i, BandwidthFrom(s, i, j) + 1)
    decreases BandwidthLimit - j
  {
    if !Narrowed(s, i, j) && j < BandwidthLimit - 1 {
      BandwidthFromCharacterised(s, i, j + 1);
    }
  }

  /** The bandwidth is in [0,19]; no offset up to it has both sides below half the
      peak, and the offset just past it (when below 20) has. */
  lemma BandwidthCharacterised(s: seq<real>, i: int)
    requires 0 <= i < |s|
    ensures Bandwidth(s, i) < BandwidthLimit
    ensures forall k :: 1 <= k <= Bandwidth(s, i) ==> !Narrowed(s, i, k)
    ensures Bandwidth(s, i) < BandwidthLimit - 1 ==> Narrowed(s, i, Bandwidth(s, i) + 1)
  {
    BandwidthFromCharacterised(s, i, 1);
  }

  /** The record `findPeaks` appends for bin `i`. */
  function PeakAt(s: seq<real>, sampleRate: real, i: int): SpectralPeak
    requires 0 <= i < |s|
  {
    SpectralPeak(i, FFT.FrequencyForBin(i, sampleRate), s[i], Bandwidth(s, i))
  }

  /** The peaks among bins 2 up to, not including, `n`, in bin order. */
  function PeaksBelow(s: seq<real>, sampleRate: real, n: int): seq<SpectralPeak>
    requires n <= |s| - 2
    decreases n
  {
    if n <= 2 then []
    else PeaksBelow(s, sampleRate, n - 1) + (if IsPeakAt(s, n - 1) then [PeakAt(s, sampleRate, n - 1)] else [])
  }

  /** `findPeaks`: the scanned range is `2..<(count - 2)`, which needs at least four
      bins. */
  function Peaks(s: seq<real>, sampleRate: real): seq<SpectralPeak>
    requires 4 <= |s|
  {
    PeaksBelow(s, sampleRate, |s| - 2)
  }

  lemma {:induction false} PeaksBelowProperties(s: seq<real>, sampleRate: real, n: int)
    requires n <= |s| - 2
    ensures forall p :: p in PeaksBelow(s, sampleRate, n) ==>
      2 <= p.binIndex < n && IsPeakAt(s, p.binIndex) && p == PeakAt(s, sampleRate, p.binIndex)
    ensures forall a, b :: 0 <= a < b < |PeaksBelow(s, sampleRate, n)| ==>
      PeaksBelow(s, sampleRate, n)[a].binIndex < PeaksBelow(s, sampleRate, n)[b].binIndex
    ensures forall i :: 2 <= i < n && IsPeakAt(s, i) ==> PeakAt(s, sampleRate, i) in PeaksBelow(s, sampleRate, n)
    decreases n
  {
    if n > 2 {
      PeaksBelowProperties(s, sampleRate, n - 1);
      var prev := PeaksBelow(s, sampleRate, n - 1);
      var r := PeaksBelow(s, sampleRate, n);
      assert forall p :: p in r ==> p in prev || p == PeakAt(s, sampleRate, n - 1);
      forall a, b | 0 <= a < b < |r| ensures r[a].binIndex < r[b].binIndex {
        if b < |prev| {
          assert r[a] == prev[a] && r[b] == prev[b];
        } else {
          assert r[a] in prev;
        }
      }
    }
  }

  /** Every reported peak is a local maximum over two bins on each side, above the
      threshold, inside `2..<(count - 2)`, with its own magnitude and a bandwidth in
      [0,19]; the peaks come in ascending bin order, and no local maximum is missed. */
  lemma PeaksProperties(s: seq<real>, sampleRate: real)
    requires 4 <= |s|
    ensures forall p :: p in Peaks(s, sampleRate) ==>
      && 2 <= p.binIndex < |s| - 2
      && p.magnitude == s[p.binIndex] && p.magnitude > PeakThreshold
      && p.magnitude > s[p.binIndex - 1] && p.magnitude > s[p.binIndex + 1]
      && p.magnitude > s[p.binIndex - 2] && p.magnitude > s[p.binIndex + 2]
      && p.bandwidth < BandwidthLimit && p.bandwidth == Bandwidth(s, p.binIndex)
      && p.frequency == FFT.FrequencyForBin(p.binIndex, sampleRate)
    ensures forall a, b :: 0 <= a < b < |Peaks(s, sampleRate)| ==>
      Peaks(s, sampleRate)[a].binIndex < Peaks(s, sampleRate)[b].binIndex
    ensures forall i :: 2 <= i < |s| - 2 && IsPeakAt(s, i) ==> PeakAt(s, sampleRate, i) in Peaks(s, sampleRate)
  {
    PeaksBelowProperties(s, sampleRate, |s| - 2);
    forall p | p in Peaks(s, sampleRate) ensures p.bandwidth < BandwidthLimit {
      BandwidthCharacterised(s, p.binIndex);
    }
  }

  /** The bandwidth loop of `findPeaks`, with its early `break`. */
  method ComputeBandwidth(s: seq<real>, i: int) returns (bandwidth: nat)
    requires 0 <= i < |s|
    ensures bandwidth == Bandwidth(s, i)
  {
    var halfMag := s[i] / 2.0;
    bandwidth := 0;
    var j := 1;
    while j < BandwidthLimit
      invariant 1 <= j <= BandwidthLimit && bandwidth == j - 1
      invariant j < BandwidthLimit ==> BandwidthFrom(s, i, j) == Bandwidth(s, i)
      invariant j == BandwidthLimit ==> bandwidth == Bandwidth(s, i)
    {
      var left := if i - j >= 0 then s[i - j] else 0.0;
      var right := if i + j < |s| then s[i + j] else 0.0;
      if left < halfMag && right < halfMag {
        break;
      }
      bandwidth := j;
      j := j + 1;
    }
  }

  /** `findPeaks`: one scan over the bins, appending each local maximum. */
  method FindPeaks(spectrum: seq<real>, sampleRate: real) returns (peaks: seq<SpectralPeak>)
    requires 4 <= |spectrum|
    ensures peaks == Peaks(spectrum, sampleRate)
  {
    peaks := [];
    var i := 2;
    while i < |spectrum| - 2
      invariant 2 <= i <= |spectrum| - 2
      invariant peaks == PeaksBelow(spectrum, sampleRate, i)
    {
      if spectrum[i] > spectrum[i - 1] && spectrum[i] > spectrum[i + 1]
        && spectrum[i] > spectrum[i - 2] && spectrum[i] > spectrum[i + 2]
        && spectrum[i] > PeakThreshold {
        var bandwidth := ComputeBandwidth(spectrum, i);
        peaks := peaks + [SpectralPeak(i, FFT.FrequencyForBin(i, sampleRate), spectrum[i], bandwidth)];
      }
      i := i + 1;
    }
  }

  predicate Significant(p: SpectralPeak)
  {
    p.magnitude > SignificantMagnitude
  }

  /** Sort key that puts the strongest peak first. */
  function Weakness(p: SpectralPeak): real
  {
    -p.magnitude
  }

  /** The peaks offered to the region selection: the significant ones, strongest
      first, at most eight. */
  function Candidates(peaks: seq<SpectralPeak>): (c: seq<SpectralPeak>)
    ensures |c| <= MaxRegions
  {
    var ranked := SortBy(Filter(peaks, Significant), Weakness);
    ranked[..MinInt(|ranked|, MaxRegions)]
  }

  /** Every candidate is a significant peak of the input, the candidates come
      strongest first, and a significant peak is left out only when eight at least
      as strong ones were taken. */
  lemma CandidatesProperties(peaks: seq<SpectralPeak>)
    ensures forall c :: c in Candidates(peaks) ==> c in peaks && Significant(c)
    ensures forall a, b :: 0 <= a < b < |Candidates(peaks)| ==>
      Candidates(peaks)[b].magnitude <= Candidates(peaks)[a].magnitude
    ensures forall p :: p in peaks && Significant(p) && p !in Candidates(peaks) ==>
      |Candidates(peaks)| == MaxRegions
      && forall c :: c in Candidates(peaks) ==> p.magnitude <= c.magnitude
  {
    var filtered := Filter(peaks, Significant);
    var ranked := SortBy(filtered, Weakness);
    var c := Candidates(peaks);
    FilterMembers(peaks, Significant);
    SortByMembers(filtered, Weakness);
    SortBySorted(filtered, Weakness);
    assert c == ranked[..MinInt(|ranked|, MaxRegions)];
    forall x | x in c ensures x in peaks && Significant(x) {
      assert x in ranked;
    }
    forall a, b | 0 <= a < b < |c| ensures c[b].magnitude <= c[a].magnitude {
      assert Weakness(ranked[a]) <= Weakness(ranked[b]);
    }
    forall p | p in peaks && Significant(p) && p !in c
      ensures |c| == MaxRegions && forall x :: x in c ==> p.magnitude <= x.magnitude
    {
      assert p in ranked;
      var j :| 0 <= j < |ranked| && ranked[j] == p;
      assert MaxRegions <= j;
      forall x | x in c ensures p.magnitude <= x.magnitude {
        var k :| 0 <= k < |c| && c[k] == x;
        assert Weakness(ranked[k]) <= Weakness(ranked[j]);
      }
    }
  }
}
