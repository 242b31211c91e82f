/** The web client's frequency bands: the table of bin frequencies built once
    per analyser, the six named bands, the band a bin belongs to, and each band's
    mean energy with its 12% exponential smoothing. */
module FeatureBands {
  import opened Numeric

  datatype Color = Color(r: real, g: real, b: real)

  /** A band covers `min <= f < max`. */
  datatype Band = Band(name: string, min: real, max: real, color: Color)

  const Bands: seq<Band> := [
    Band("low", 40.0, 160.0, Color(0.15, 0.35, 0.75)),
    Band("lowMid", 160.0, 450.0, Color(0.2, 0.55, 0.7)),
    Band("mid", 450.0, 1400.0, Color(0.25, 0.65, 0.55)),
    Band("highMid", 1400.0, 3200.0, Color(0.5, 0.55, 0.35)),
    Band("presence", 3200.0, 6000.0, Color(0.65, 0.4, 0.45)),
    Band("air", 6000.0, 14000.0, Color(0.55, 0.35, 0.6))
  ]

  const BandCount: nat := 6
  /** The band a frequency outside every band falls back to: the last one. */
  const FallbackBand: nat := 5
  /** The smoothed band energy moves this fraction of the way to the new one. */
  const BandSmoothing: real := 0.12

  /** `frequencies[i] = (i * nyquist) / frequencyBins`. */
  function BinFrequency(i: int, sampleRate: real, frequencyBins: nat): real
    requires 0 < frequencyBins
  {
    (i as real * (sampleRate / 2.0)) / frequencyBins as real
  }

  /** The table starts at 0 and rises with the bin index. */
  lemma BinFrequencyMonotone(i: int, j: int, sampleRate: real, frequencyBins: nat)
    requires 0 < frequencyBins && 0.0 <= sampleRate && 0 <= i <= j
    ensures BinFrequency(0, sampleRate, frequencyBins) == 0.0
    ensures 0.0 <= BinFrequency(i, sampleRate, frequencyBins) <= BinFrequency(j, sampleRate, frequencyBins)
  {
    var ny := sampleRate / 2.0;
    MulMonotone(i as real, j as real, ny);
    DivMonotone(i as real * ny, j as real * ny, frequencyBins as real);
    MulMonotone(0.0, i as real, ny);
    DivMonotone(0.0, i as real * ny, frequencyBins as real);
  }

  /** Every entry of the table lies below the Nyquist frequency. */
  lemma BinFrequencyBelowNyquist(j: int, sampleRate: real, frequencyBins: nat)
    requires 0 < frequencyBins && 0.0 < sampleRate && j < frequencyBins
    ensures BinFrequency(j, sampleRate, frequencyBins) < sampleRate / 2.0
  {
    var n := frequencyBins as real;
    var ny := sampleRate / 2.0;
    MulLess(j as real, n, ny);
    DivLess(j as real * ny, n * ny, n);
    MulDivCancel(ny, n);
    assert n * ny == ny * n;
  }

  /** Neighbouring bins are one Nyquist-over-bins step apart. */
  lemma BinFrequencyStep(i: int, sampleRate: real, frequencyBins: nat)
    requires 0 < frequencyBins
    ensures BinFrequency(i + 1, sampleRate, frequencyBins) - BinFrequency(i, sampleRate, frequencyBins)
      == (sampleRate / 2.0) / frequencyBins as real
  {
    var ny := sampleRate / 2.0;
    assert (i + 1) as real * ny == i as real * ny + ny;
  }

  lemma DivLess(a: real, b: real, d: real)
    requires a < b && 0.0 < d
    ensures a / d < b / d
  {
    MulLess(a, b, 1.0 / d);
  }

  predicate Holds(band: Band, f: real)
  {
    band.min <= f < band.max
  }

  predicate InBand(f: real, b: nat)
    requires b < BandCount
  {
    Holds(Bands[b], f)
  }

  /** The loop of `getBandForBin` from band `i` on. */
  function BandFrom(f: real, i: nat): (b: nat)
    requires i <= BandCount
    ensures b < BandCount
    decreases BandCount - i
  {
    if i == BandCount then FallbackBand
    else if InBand(f, i) then i
    else BandFrom(f, i + 1)
  }

  /** The band a frequency belongs to: the first band holding it, else the last. */
  function BandFor(f: real): (b: nat)
    ensures b < BandCount
  {
    BandFrom(f, 0)
  }

  /** `getBandForBin`: the band of the bin's frequency. A bin past the table reads
      `undefined`, which fails every comparison, so it too gets the last band. */
  function BandForBin(bin: int, table: seq<real>): (b: nat)
    ensures b < BandCount
  {
    if 0 <= bin < |table| then BandFor(table[bin]) else FallbackBand
  }

  lemma {:induction false} BandFromCharacterised(f: real, i: nat)
    requires i <= BandCount
    ensures BandFrom(f, i) < BandCount
    ensures forall j :: i <= j < BandCount && j < BandFrom(f, i) ==> !InBand(f, j)
    ensures forall j :: i <= j < BandCount && InBand(f, j) ==> i <= BandFrom(f, i) <= j && InBand(f, BandFrom(f, i))
    ensures (forall j :: i <= j < BandCount ==> !InBand(f, j)) ==> BandFrom(f, i) == FallbackBand
    decreases BandCount - i
  {
    if i < BandCount && !InBand(f, i) {
      BandFromCharacterised(f, i + 1);
    }
  }

  /** The bands are contiguous and disjoint from 40 Hz up to 14 kHz: a frequency in
      that span gets the one band that holds it, any other frequency the last
      band, and no band before the chosen one holds it. */
  lemma BandForCharacterised(f: real)
    ensures BandFor(f) < BandCount
    ensures forall j :: 0 <= j < BandFor(f) ==> !InBand(f, j)
    ensures 40.0 <= f < 14000.0 ==> InBand(f, BandFor(f))
    ensures forall j :: 0 <= j < BandCount && InBand(f, j) ==> BandFor(f) == j
    ensures (f < 40.0 || 14000.0 <= f) ==> BandFor(f) == FallbackBand
  {
    BandFromCharacterised(f, 0);
    BandsDisjoint(f);
    if 40.0 <= f < 14000.0 {
      var j := if f < 160.0 then 0 else if f < 450.0 then 1 else if f < 1400.0 then 2
        else if f < 3200.0 then 3 else if f < 6000.0 then 4 else 5;
      assert InBand(f, j);
    }
  }

  /** No frequency lies in two bands. */
  lemma BandsDisjoint(f: real)
    ensures forall j, k :: 0 <= j < BandCount && 0 <= k < BandCount && InBand(f, j) && InBand(f, k) ==> j == k
  {
    forall j, k | 0 <= j < k < BandCount ensures Bands[j].max <= Bands[k].min {
    }
  }

  // ---------------------------------------------------------------------------
  // Band energies

  /** Sum of the spectrum over the band's bins among the first `n`. */
  function BandSum(spectrum: seq<real>, table: seq<real>, band: Band, n: nat): real
    requires n <= |table| && n <= |spectrum|
  {
    if n == 0 then 0.0
    else BandSum(spectrum, table, band, n - 1) + (if Holds(band, table[n - 1]) then spectrum[n - 1] else 0.0)
  }

  /** Number of the band's bins among the first `n`. */
  function BandBins(table: seq<real>, band: Band, n: nat): nat
    requires n <= |table|
  {
    if n == 0 then 0
    else BandBins(table, band, n - 1) + (if Holds(band, table[n - 1]) then 1 else 0)
  }

  /** `bandEnergies[b]`: the mean over the band's bins, 0 for a band without bins. */
  function BandMean(spectrum: seq<real>, table: seq<real>, band: Band): real
    requires |table| <= |spectrum|
  {
    var count := BandBins(table, band, |table|);
    if count > 0 then BandSum(spectrum, table, band, |table|) / count as real else 0.0
  }

  /** The band sum lies between the bin count times a lower and an upper bound of
      the values. */
  lemma BandSumBounds(spectrum: seq<real>, table: seq<real>, band: Band, n: nat, lo: real, hi: real)
    requires n <= |table| && n <= |spectrum|
    requires forall i :: 0 <= i < n ==> lo <= spectrum[i] <= hi
    ensures BandBins(table, band, n) as real * lo <= BandSum(spectrum, table, band, n) <= BandBins(table, band, n) as real * hi
  {
    BandSumAbove(spectrum, table, band, n, lo);
    BandSumBelow(spectrum, table, band, n, hi);
  }

  lemma {:induction false} BandSumAbove(spectrum: seq<real>, table: seq<real>, band: Band, n: nat, lo: real)
    requires n <= |table| && n <= |spectrum|
    requires forall i :: 0 <= i < n ==> lo <= spectrum[i]
    ensures BandBins(table, band, n) as real * lo <= BandSum(spectrum, table, band, n)
  {
    if n > 0 {
      BandSumAbove(spectrum, table, band, n - 1, lo);
      if Holds(band, table[n - 1]) {
        AddAbove(BandBins(table, band, n - 1) as real, BandSum(spectrum, table, band, n - 1), spectrum[n - 1], lo);
      }
    }
  }

  lemma {:induction false} BandSumBelow(spectrum: seq<real>, table: seq<real>, band: Band, n: nat, hi: real)
    requires n <= |table| && n <= |spectrum|
    requires forall i :: 0 <= i < n ==> spectrum[i] <= hi
    ensures BandSum(spectrum, table, band, n) <= BandBins(table, band, n) as real * hi
  {
    if n > 0 {
      BandSumBelow(spectrum, table, band, n - 1, hi);
      if Holds(band, table[n - 1]) {
        AddAbove(BandBins(table, band, n - 1) as real, -BandSum(spectrum, table, band, n - 1), -spectrum[n - 1], -hi);
      }
    }
  }

  lemma AddAbove(c: real, total: real, x: real, lo: real)
    requires c * lo <= total && lo <= x
    ensures (c + 1.0) * lo <= total + x
  {
  }

  /** A band without bins reads 0; otherwise the band energy lies within the bounds
      of the spectrum, so a spectrum normalised to [0,1] gives band energies in
      [0,1]. */
  lemma BandMeanBounds(spectrum: seq<real>, table: seq<real>, band: Band, lo: real, hi: real)
    requires |table| <= |spectrum|
    requires forall i :: 0 <= i < |table| ==> lo <= spectrum[i] <= hi
    ensures BandBins(table, band, |table|) == 0 ==> BandMean(spectrum, table, band) == 0.0
    ensures BandBins(table, band, |table|) > 0 ==> lo <= BandMean(spectrum, table, band) <= hi
  {
    BandSumBounds(spectrum, table, band, |table|, lo, hi);
    var count := BandBins(table, band, |table|);
    if count > 0 {
      MeanBetween(BandSum(spectrum, table, band, |table|), count as real, lo, hi);
    }
  }

  /** Only bins whose frequency lies in the band contribute: changing the spectrum
      outside the band leaves the band energy unchanged. */
  lemma {:induction false} BandSumLocal(s1: seq<real>, s2: seq<real>, table: seq<real>, band: Band, n: nat)
    requires n <= |table| && n <= |s1| && n <= |s2|
    requires forall i :: 0 <= i < n && Holds(band, table[i]) ==> s1[i] == s2[i]
    ensures BandSum(s1, table, band, n) == BandSum(s2, table, band, n)
  {
    if n > 0 {
      BandSumLocal(s1, s2, table, band, n - 1);
    }
  }
}
