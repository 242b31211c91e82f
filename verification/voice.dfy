/** The record the macOS app publishes for each tracked voice, and the hue its
    colour is drawn with. The voice's UUID is a natural number handed out by the
    tracker, and its last-active `Date` is a time in seconds. */
module Voices {
  import opened Numeric

  /** `frequencyRange` is the closed range `lowFreq...highFreq`. */
  datatype Voice = Voice(
    id: nat,
    name: string,
    lowFreq: real,
    highFreq: real,
    spectralCentroid: real,
    spectralShape: seq<real>,
    isActive: bool,
    energy: real,
    lastActiveTime: real)

  /** The hue of `Voice.color`: 0.6 at a centroid of 100 Hz, falling by 0.5 every
      4000 Hz, clamped to [0,1]; low voices are warm, high voices cool. */
  function Hue(spectralCentroid: real): real
  {
    Clamp(0.6 - (spectralCentroid - 100.0) / 4000.0 * 0.5, 0.0, 1.0)
  }

  /** The hue is a valid colour coordinate, and it is exactly the unclamped line
      wherever that line is itself in range. */
  lemma HueRange(spectralCentroid: real)
    ensures 0.0 <= Hue(spectralCentroid) <= 1.0
    ensures spectralCentroid <= -3100.0 ==> Hue(spectralCentroid) == 1.0
    ensures 4900.0 <= spectralCentroid ==> Hue(spectralCentroid) == 0.0
    ensures -3100.0 <= spectralCentroid <= 4900.0 ==>
      Hue(spectralCentroid) == 0.6 - (spectralCentroid - 100.0) / 8000.0
  {
  }

  /** A higher centroid never gets a warmer hue. */
  lemma HueNonIncreasing(c1: real, c2: real)
    requires c1 <= c2
    ensures Hue(c2) <= Hue(c1)
  {
    var l1 := 0.6 - (c1 - 100.0) / 4000.0 * 0.5;
    var l2 := 0.6 - (c2 - 100.0) / 4000.0 * 0.5;
    assert l2 <= l1;
  }
}
