/** The web client's "vibe" store: three user-set parameters and a smoothed copy
    that follows them by linear interpolation once per animation frame. */
module Vibe {
  import opened Numeric

  datatype VibeState = VibeState(viscosity: real, harmonics: real, atmosphere: real)

  const LerpFactor: real := 0.12

  /** One smoothing step: every field moves 12% of the way to its target. */
  function UpdateVibeSmooth(currentSmooth: VibeState, targetVibe: VibeState): VibeState
  {
    VibeState(
      Lerp(currentSmooth.viscosity, targetVibe.viscosity, LerpFactor),
      Lerp(currentSmooth.harmonics, targetVibe.harmonics, LerpFactor),
      Lerp(currentSmooth.atmosphere, targetVibe.atmosphere, LerpFactor))
  }

  /** Each field's distance to its target shrinks to 88%, independently of the
      other two fields, and never overshoots. */
  lemma UpdateVibeSmoothContracts(currentSmooth: VibeState, targetVibe: VibeState)
    ensures var next := UpdateVibeSmooth(currentSmooth, targetVibe);
      && RealAbs(next.viscosity - targetVibe.viscosity) == 0.88 * RealAbs(currentSmooth.viscosity - targetVibe.viscosity)
      && RealAbs(next.harmonics - targetVibe.harmonics) == 0.88 * RealAbs(currentSmooth.harmonics - targetVibe.harmonics)
      && RealAbs(next.atmosphere - targetVibe.atmosphere) == 0.88 * RealAbs(currentSmooth.atmosphere - targetVibe.atmosphere)
    ensures var next := UpdateVibeSmooth(currentSmooth, targetVibe);
      && Min(currentSmooth.viscosity, targetVibe.viscosity) <= next.viscosity <= Max(currentSmooth.viscosity, targetVibe.viscosity)
      && Min(currentSmooth.harmonics, targetVibe.harmonics) <= next.harmonics <= Max(currentSmooth.harmonics, targetVibe.harmonics)
      && Min(currentSmooth.atmosphere, targetVibe.atmosphere) <= next.atmosphere <= Max(currentSmooth.atmosphere, targetVibe.atmosphere)
  {
    LerpDistance(currentSmooth.viscosity, targetVibe.viscosity, LerpFactor);
    LerpDistance(currentSmooth.harmonics, targetVibe.harmonics, LerpFactor);
    LerpDistance(currentSmooth.atmosphere, targetVibe.atmosphere, LerpFactor);
    LerpBetween(currentSmooth.viscosity, targetVibe.viscosity, LerpFactor);
    LerpBetween(currentSmooth.harmonics, targetVibe.harmonics, LerpFactor);
    LerpBetween(currentSmooth.atmosphere, targetVibe.atmosphere, LerpFactor);
  }

  /** A smoothed state that has reached its target stays there. */
  lemma UpdateVibeSmoothFixedPoint(v: VibeState)
    ensures UpdateVibeSmooth(v, v) == v
  {
  }

  /** The smoothed state after `n` frames with an unchanging target. */
  function Smoothed(start: VibeState, target: VibeState, n: nat): VibeState
  {
    if n == 0 then start else UpdateVibeSmooth(Smoothed(start, target, n - 1), target)
  }

  /** One field after `n` smoothing steps toward a fixed target. */
  function Iterated(start: real, target: real, n: nat): real
  {
    if n == 0 then start else Lerp(Iterated(start, target, n - 1), target, LerpFactor)
  }

  function Pow(b: real, n: nat): real { if n == 0 then 1.0 else b * Pow(b, n - 1) }

  /** The three fields are smoothed independently of each other. */
  lemma {:induction false} SmoothedFieldwise(start: VibeState, target: VibeState, n: nat)
    ensures Smoothed(start, target, n).viscosity == Iterated(start.viscosity, target.viscosity, n)
    ensures Smoothed(start, target, n).harmonics == Iterated(start.harmonics, target.harmonics, n)
    ensures Smoothed(start, target, n).atmosphere == Iterated(start.atmosphere, target.atmosphere, n)
  {
    if n > 0 {
      SmoothedFieldwise(start, target, n - 1);
    }
  }

  /** After `n` frames a field is at 0.88^n of its starting distance. */
  lemma {:induction false} IteratedConverges(start: real, target: real, n: nat)
    ensures RealAbs(Iterated(start, target, n) - target) == Pow(0.88, n) * RealAbs(start - target)
  {
    if n > 0 {
      IteratedConverges(start, target, n - 1);
      var prev := Iterated(start, target, n - 1);
      LerpDistance(prev, target, LerpFactor);
      assert RealAbs(Iterated(start, target, n) - target) == 0.88 * RealAbs(prev - target);
      ScaleStep(RealAbs(prev - target), Pow(0.88, n - 1), RealAbs(start - target));
      assert Pow(0.88, n) == 0.88 * Pow(0.88, n - 1);
    }
  }

  lemma ScaleStep(prev: real, p: real, a: real)
    requires prev == p * a
    ensures 0.88 * prev == (0.88 * p) * a
  {
  }

  /** After `n` frames each field of the smoothed state is at 0.88^n of its
      starting distance to the target. */
  lemma SmoothedConverges(start: VibeState, target: VibeState, n: nat)
    ensures RealAbs(Smoothed(start, target, n).viscosity - target.viscosity)
         == Pow(0.88, n) * RealAbs(start.viscosity - target.viscosity)
    ensures RealAbs(Smoothed(start, target, n).harmonics - target.harmonics)
         == Pow(0.88, n) * RealAbs(start.harmonics - target.harmonics)
    ensures RealAbs(Smoothed(start, target, n).atmosphere - target.atmosphere)
         == Pow(0.88, n) * RealAbs(start.atmosphere - target.atmosphere)
  {
    SmoothedFieldwise(start, target, n);
    IteratedConverges(start.viscosity, target.viscosity, n);
    IteratedConverges(start.harmonics, target.harmonics, n);
    IteratedConverges(start.atmosphere, target.atmosphere, n);
  }
}
