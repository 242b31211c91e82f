/** The spectral transform of the macOS app: a 2048-point staging window, a Hann
    window, a discrete Fourier transform and the magnitudes of its first half.
    The Hann coefficients and the transform itself come from the platform's
    signal-processing library; here they are a constructor argument and a
    function argument. */
module FFT {
  import opened Numeric

  const FftSize: nat := 2048
  /** Number of magnitudes per spectrum: half the transform size. */
  const BinCount: nat := FftSize / 2

  /** Centre frequency of a bin: `bin * sampleRate / fftSize`. */
  function FrequencyForBin(bin: int, sampleRate: real): real
  {
    bin as real * sampleRate / FftSize as real
  }

  /** The bin of a frequency, by Swift's truncating `Int(...)` conversion. */
  function BinForFrequency(frequency: real, sampleRate: real): int
    requires sampleRate != 0.0
  {
    Trunc(frequency * FftSize as real / sampleRate)
  }

  /** In exact arithmetic the two conversions are inverse on bins. */
  lemma BinFrequencyRoundTrip(bin: int, sampleRate: real)
    requires sampleRate != 0.0
    ensures BinForFrequency(FrequencyForBin(bin, sampleRate), sampleRate) == bin
  {
    var f := FrequencyForBin(bin, sampleRate);
    assert f * FftSize as real == bin as real * sampleRate;
    assert f * FftSize as real / sampleRate == bin as real;
  }

  /** Truncation picks the highest bin whose centre is not above the frequency. */
  lemma BinForFrequencyIsFloor(frequency: real, sampleRate: real)
    requires 0.0 <= frequency && 0.0 < sampleRate
    ensures var b := BinForFrequency(frequency, sampleRate);
      0 <= b && FrequencyForBin(b, sampleRate) <= frequency < FrequencyForBin(b + 1, sampleRate)
  {
    assert FftSize as real == 2048.0;
    var scaled := frequency * 2048.0;
    var b := BinForFrequency(frequency, sampleRate);
    QuotientBracket(scaled, sampleRate, b as real);
    assert (b + 1) as real == b as real + 1.0;
  }

  /** The frequency of a bin grows with the bin. */
  lemma FrequencyForBinMonotone(b1: int, b2: int, sampleRate: real)
    requires b1 <= b2 && 0.0 <= sampleRate
    ensures FrequencyForBin(b1, sampleRate) <= FrequencyForBin(b2, sampleRate)
  {
    assert b1 as real * sampleRate <= b2 as real * sampleRate;
  }

  /** The staging window after a call: the last `min(n, fftSize)` samples, in order,
      fill its tail; the slots before them keep what they held before. */
  function Staged(previous: seq<real>, samples: seq<real>): (w: seq<real>)
    requires |previous| == FftSize
    ensures |w| == FftSize
  {
    var count := MinInt(|samples|, FftSize);
    previous[..FftSize - count] + samples[|samples| - count..]
  }

  /** Element-by-element product with the analysis window. */
  function Windowed(input: seq<real>, window: seq<real>): (w: seq<real>)
    requires |input| == |window|
    ensures |w| == |input|
  {
    seq(|input|, i requires 0 <= i < |input| => input[i] * window[i])
  }

  function Zeros(n: nat): (z: seq<real>)
    ensures |z| == n && forall i :: 0 <= i < n ==> z[i] == 0.0
  {
    seq(n, _ => 0.0)
  }

  /** `sqrt(re*re + im*im) / fftSize`. */
  function Magnitude(re: real, im: real, root: real -> real): real
  {
    root(re * re + im * im) / FftSize as real
  }

  /** One magnitude per bin from the first half of a transform's output. */
  function Spectrum(transformed: (seq<real>, seq<real>), root: real -> real): (s: seq<real>)
    requires BinCount <= |transformed.0| && BinCount <= |transformed.1|
    ensures |s| == BinCount
  {
    seq(BinCount, i requires 0 <= i < BinCount => Magnitude(transformed.0[i], transformed.1[i], root))
  }

  lemma MagnitudeNonNegative(re: real, im: real, root: real -> real)
    requires IsSqrt(root)
    ensures 0.0 <= Magnitude(re, im, root)
  {
    assert 0.0 <= re * re && 0.0 <= im * im;
  }

  /** The platform's forward transform: split-complex input of the transform size to
      split-complex output of the same size. */
  ghost predicate IsTransform(dft: (seq<real>, seq<real>) -> (seq<real>, seq<real>))
  {
    forall re, im :: |re| == FftSize && |im| == FftSize ==>
      |dft(re, im).0| == FftSize && |dft(re, im).1| == FftSize
  }

  class FFTProcessor {
    /** Hann window coefficients, computed once by the platform library. */
    const window: seq<real>
    var inputBuffer: array<real>
    var realPart: array<real>
    var imagPart: array<real>
    var magnitudes: array<real>
    ghost var Repr: set<object>

    ghost predicate Valid()
      reads this, Repr
    {
      && Repr == {this, inputBuffer, realPart, imagPart, magnitudes}
      && |window| == FftSize
      && inputBuffer.Length == FftSize && realPart.Length == FftSize && imagPart.Length == FftSize
      && magnitudes.Length == BinCount
      && inputBuffer != realPart && inputBuffer != imagPart && realPart != imagPart
    }

    constructor (hann: seq<real>)
      requires |hann| == FftSize
      ensures Valid() && fresh(Repr)
      ensures window == hann
      ensures inputBuffer[..] == Zeros(FftSize) && magnitudes[..] == Zeros(BinCount)
    {
      window := hann;
      inputBuffer := new real[FftSize](_ => 0.0);
      realPart := new real[FftSize](_ => 0.0);
      imagPart := new real[FftSize](_ => 0.0);
      magnitudes := new real[BinCount](_ => 0.0);
      new;
      Repr := {this, inputBuffer, realPart, imagPart, magnitudes};
    }

    /** Stages the newest samples, windows them, transforms them and returns one
        non-negative magnitude per bin. */
    method Process(samples: seq<real>, dft: (seq<real>, seq<real>) -> (seq<real>, seq<real>),
                   root: real -> real) returns (spectrum: seq<real>)
      requires Valid() && IsTransform(dft) && IsSqrt(root)
      modifies inputBuffer, realPart, imagPart, magnitudes
      ensures Valid()
      ensures inputBuffer[..] == Staged(old(inputBuffer[..]), samples)
      ensures (realPart[..], imagPart[..]) == dft(Windowed(inputBuffer[..], window), Zeros(FftSize))
      ensures spectrum == magnitudes[..] && |spectrum| == BinCount
      ensures forall i :: 0 <= i < BinCount ==> spectrum[i] == Magnitude(realPart[i], imagPart[i], root)
      ensures forall i :: 0 <= i < BinCount ==> 0.0 <= spectrum[i]
      ensures spectrum == Spectrum(dft(Windowed(Staged(old(inputBuffer[..]), samples), window), Zeros(FftSize)), root)
    {
      StageInput(samples);
      PrepareTransform();
      var transformed := dft(realPart[..], imagPart[..]);
      forall k | 0 <= k < FftSize {
        realPart[k] := transformed.0[k];
      }
      forall k | 0 <= k < FftSize {
        imagPart[k] := transformed.1[k];
      }
      assert realPart[..] == transformed.0 && imagPart[..] == transformed.1;
      ComputeMagnitudes(root);
      spectrum := magnitudes[..];
    }

    /** Fills the input buffer with the last `fftSize` samples. */
    method StageInput(samples: seq<real>)
      requires Valid()
      modifies inputBuffer
      ensures inputBuffer[..] == Staged(old(inputBuffer[..]), samples)
    {
      var start := MaxInt(0, |samples| - FftSize);
      var count := MinInt(|samples|, FftSize);
      ghost var previous := inputBuffer[..];
      var i := 0;
      while i < count
        invariant 0 <= i <= count
        invariant forall k :: 0 <= k < FftSize - count ==> inputBuffer[k] == previous[k]
        invariant forall k :: FftSize - count <= k < FftSize - count + i ==>
          inputBuffer[k] == samples[start + (k - (FftSize - count))]
      {
        inputBuffer[FftSize - count + i] := samples[start + i];
        i := i + 1;
      }
      var w := Staged(previous, samples);
      forall k | 0 <= k < FftSize ensures inputBuffer[k] == w[k] {
      }
    }

    /** Windows the staged input into the real part and clears the imaginary part. */
    method PrepareTransform()
      requires Valid()
      modifies realPart, imagPart
      ensures realPart[..] == Windowed(inputBuffer[..], window)
      ensures imagPart[..] == Zeros(FftSize)
    {
      var windowedInput := Windowed(inputBuffer[..], window);
      var i := 0;
      while i < FftSize
        invariant 0 <= i <= FftSize
        invariant forall k :: 0 <= k < i ==> realPart[k] == windowedInput[k] && imagPart[k] == 0.0
      {
        realPart[i] := windowedInput[i];
        imagPart[i] := 0.0;
        i := i + 1;
      }
    }

    /** Magnitudes of the first half of the transform, scaled by the transform size. */
    method ComputeMagnitudes(root: real -> real)
      requires Valid() && IsSqrt(root)
      modifies magnitudes
      ensures forall k :: 0 <= k < BinCount ==> magnitudes[k] == Magnitude(realPart[k], imagPart[k], root)
      ensures forall k :: 0 <= k < BinCount ==> 0.0 <= magnitudes[k]
    {
      var i := 0;
      while i < BinCount
        invariant 0 <= i <= BinCount
        invariant forall k :: 0 <= k < i ==> magnitudes[k] == Magnitude(realPart[k], imagPart[k], root)
        invariant forall k :: 0 <= k < i ==> 0.0 <= magnitudes[k]
      {
        MagnitudeNonNegative(realPart[i], imagPart[i], root);
        magnitudes[i] := Magnitude(realPart[i], imagPart[i], root);
        i := i + 1;
      }
    }

    function BinCountOf(): (n: nat)
      ensures n == FftSize / 2
    {
      BinCount
    }
  }
}
