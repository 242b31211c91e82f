/** The web client's audio engine: the noise-floor calibration that averages the
    captured decibel spectra bin by bin, and the per-frame noise gate that maps
    decibel values onto [0,1]. Microphone access, the Web Audio analyser and the
    animation-frame loop are not part of this model. */
module AudioEngine {
  import opened Numeric

  const MinDb: real := -90.0
  const MaxDb: real := -10.0
  /** A bin must exceed its noise-floor level by this many decibels to pass the gate. */
  const GateMarginDb: real := 10.0
  const SimplifiedNoiseFloorDb: real := -60.0

  /** The noise gate. A bin below its floor level plus the margin is replaced by
      `minDb`. With no floor captured yet nothing is gated; a bin beyond the end of
      the captured floor reads `undefined`, compares false and is not gated either. */
  function Gated(val: real, i: nat, floor: Option<seq<real>>): real
  {
    if floor.Some? && i < |floor.value| && val < floor.value[i] + GateMarginDb then MinDb else val
  }

  /** `(clamp(val, minDb, maxDb) - minDb) / (maxDb - minDb)`. */
  function NormalizeDb(val: real): real
  {
    (Clamp(val, MinDb, MaxDb) - MinDb) / (MaxDb - MinDb)
  }

  /** The normalised value lies in [0,1]; at and above `maxDb` it is 1, at and below
      `minDb` it is 0. */
  lemma NormalizeDbRange(val: real)
    ensures 0.0 <= NormalizeDb(val) <= 1.0
    ensures MaxDb <= val ==> NormalizeDb(val) == 1.0
    ensures val <= MinDb ==> NormalizeDb(val) == 0.0
  {
  }

  /** Louder input never gives a smaller normalised value. */
  lemma NormalizeDbMonotone(v1: real, v2: real)
    requires v1 <= v2
    ensures NormalizeDb(v1) <= NormalizeDb(v2)
  {
  }

  /** A gated bin comes out as exactly 0. */
  lemma GatedBinIsSilent(val: real, i: nat, floor: seq<real>)
    requires i < |floor| && val < floor[i] + GateMarginDb
    ensures NormalizeDb(Gated(val, i, Some(floor))) == 0.0
  {
  }

  class AudioEngine {
    var noiseFloor: Option<real>
    var noiseFloorMagnitudes: Option<seq<real>>

    constructor ()
      ensures noiseFloor == None && noiseFloorMagnitudes == None
    {
      noiseFloor := None;
      noiseFloorMagnitudes := None;
    }

    /** Noise gate and normalisation of one decibel spectrum into a fresh array. */
    method ProcessSpectrum(spectrum: seq<real>) returns (normalized: seq<real>)
      ensures |normalized| == |spectrum|
      ensures forall i :: 0 <= i < |spectrum| ==>
        normalized[i] == NormalizeDb(Gated(spectrum[i], i, noiseFloorMagnitudes))
      ensures forall i :: 0 <= i < |spectrum| ==> 0.0 <= normalized[i] <= 1.0
      ensures forall i :: (0 <= i < |spectrum| && noiseFloorMagnitudes.Some? && i < |noiseFloorMagnitudes.value|
                           && spectrum[i] < noiseFloorMagnitudes.value[i] + GateMarginDb) ==> normalized[i] == 0.0
    {
      var out := new real[|spectrum|](_ => 0.0);
      var i := 0;
      while i < |spectrum|
        invariant 0 <= i <= |spectrum|
        invariant forall k :: 0 <= k < i ==> out[k] == NormalizeDb(Gated(spectrum[k], k, noiseFloorMagnitudes))
        invariant forall k :: 0 <= k < i ==> 0.0 <= out[k] <= 1.0
      {
        var val := spectrum[i];
        if noiseFloorMagnitudes.Some? && i < |noiseFloorMagnitudes.value|
          && val < noiseFloorMagnitudes.value[i] + GateMarginDb {
          val := MinDb;
        }
        NormalizeDbRange(val);
        out[i] := NormalizeDb(val);
        i := i + 1;
      }
      normalized := out[..];
    }

    /** The end of the noise-floor capture: the per-bin mean of the captured
        spectra becomes the gate's floor. */
    method CalibrateNoiseFloor(samples: seq<seq<real>>, bufferLength: nat)
      requires |samples| > 0 && RowsCover(samples, bufferLength)
      modifies this
      ensures noiseFloorMagnitudes == Some(ColumnMean(samples, bufferLength))
      ensures noiseFloor == Some(SimplifiedNoiseFloorDb)
    {
      var floor := new real[bufferLength](_ => 0.0);
      var bin := 0;
      while bin < bufferLength
        invariant 0 <= bin <= bufferLength
        invariant forall b :: 0 <= b < bin ==> floor[b] == ColumnSum(samples, b) / |samples| as real
      {
        var sum := 0.0;
        var k := 0;
        while k < |samples|
          invariant 0 <= k <= |samples|
          invariant sum == ColumnSum(samples[..k], bin)
        {
          assert samples[..k + 1][..k] == samples[..k];
          sum := sum + samples[k][bin];
          k := k + 1;
        }
        assert samples[..|samples|] == samples;
        floor[bin] := sum / |samples| as real;
        bin := bin + 1;
      }
      assert floor[..] == ColumnMean(samples, bufferLength);
      noiseFloorMagnitudes := Some(floor[..]);
      noiseFloor := Some(SimplifiedNoiseFloorDb);
    }
  }
}
