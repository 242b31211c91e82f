/** The command-line tool's spectral transform. It differs from the app's in how it
    stages a block: a fresh zero buffer each call, whose tail receives the FIRST
    `min(n, 2048)` samples of the block. Windowing, the transform and the
    magnitudes are those of the app. */
module CliFFT {
  import opened Numeric
  import FFT

  /** The staged buffer: zeros, then the first `min(n, fftSize)` samples. */
  function CliStaged(samples: seq<real>): (w: seq<real>)
    ensures |w| == FFT.FftSize
  {
    var count := MinInt(|samples|, FFT.FftSize);
    FFT.Zeros(FFT.FftSize - count) + samples[..count]
  }

  /** A block that fits is staged exactly as the app stages it into a cleared
      buffer; a longer block keeps its oldest 2048 samples where the app keeps the
      newest. */
  lemma CliStagedVersusApp(samples: seq<real>)
    ensures |samples| <= FFT.FftSize ==> CliStaged(samples) == FFT.Staged(FFT.Zeros(FFT.FftSize), samples)
    ensures FFT.FftSize < |samples| ==>
      CliStaged(samples) == samples[..FFT.FftSize]
      && FFT.Staged(FFT.Zeros(FFT.FftSize), samples) == samples[|samples| - FFT.FftSize..]
  {
    var count := MinInt(|samples|, FFT.FftSize);
    if |samples| <= FFT.FftSize {
      assert samples[|samples| - count..] == samples[..count];
      assert FFT.Zeros(FFT.FftSize)[..FFT.FftSize - count] == FFT.Zeros(FFT.FftSize - count);
    } else {
      assert FFT.Zeros(FFT.FftSize - count) == [];
      assert FFT.Zeros(FFT.FftSize)[..FFT.FftSize - count] == [];
    }
  }

  class FFTProcessor {
    /** Hann window coefficients, computed once by the platform library. */
    const window: seq<real>
    const realPart: array<real>
    const imagPart: array<real>

    ghost predicate Valid()
      reads this
    {
      && |window| == FFT.FftSize
      && realPart.Length == FFT.FftSize && imagPart.Length == FFT.FftSize
      && realPart != imagPart
    }

    constructor (hann: seq<real>)
      requires |hann| == FFT.FftSize
      ensures Valid() && fresh(realPart) && fresh(imagPart)
      ensures window == hann
    {
      window := hann;
      realPart := new real[FFT.FftSize](_ => 0.0);
      imagPart := new real[FFT.FftSize](_ => 0.0);
    }

    /** `process`: stages the block, windows it, transforms it and returns one
        non-negative magnitude per bin of the first half. */
    method Process(samples: seq<real>, dft: (seq<real>, seq<real>) -> (seq<real>, seq<real>),
                   root: real -> real) returns (spectrum: seq<real>)
      requires Valid() && FFT.IsTransform(dft) && IsSqrt(root)
      modifies realPart, imagPart
      ensures (realPart[..], imagPart[..]) == dft(FFT.Windowed(CliStaged(samples), window), FFT.Zeros(FFT.FftSize))
      ensures |spectrum| == FFT.BinCount
      ensures forall i :: 0 <= i < FFT.BinCount ==> spectrum[i] == FFT.Magnitude(realPart[i], imagPart[i], root)
      ensures forall i :: 0 <= i < FFT.BinCount ==> 0.0 <= spectrum[i]
    {
      var input := Stage(samples);
      var windowed := FFT.Windowed(input, window);
      var i := 0;
      while i < FFT.FftSize
        invariant 0 <= i <= FFT.FftSize
        invariant forall k :: 0 <= k < i ==> realPart[k] == windowed[k] && imagPart[k] == 0.0
      {
        realPart[i] := windowed[i];
        imagPart[i] := 0.0;
        i := i + 1;
      }
      assert realPart[..] == windowed && imagPart[..] == FFT.Zeros(FFT.FftSize);
      var transformed := dft(realPart[..], imagPart[..]);
      forall k | 0 <= k < FFT.FftSize {
        realPart[k] := transformed.0[k];
      }
      forall k | 0 <= k < FFT.FftSize {
        imagPart[k] := transformed.1[k];
      }
      assert realPart[..] == transformed.0 && imagPart[..] == transformed.1;
      spectrum := Magnitudes(root);
    }

    /** The magnitude loop over the first half of the transform. */
    method Magnitudes(root: real -> real) returns (magnitudes: seq<real>)
      requires Valid() && IsSqrt(root)
      ensures |magnitudes| == FFT.BinCount
      ensures forall k :: 0 <= k < FFT.BinCount ==> magnitudes[k] == FFT.Magnitude(realPart[k], imagPart[k], root)
      ensures forall k :: 0 <= k < FFT.BinCount ==> 0.0 <= magnitudes[k]
    {
      magnitudes := [];
      var i := 0;
      while i < FFT.BinCount
        invariant 0 <= i <= FFT.BinCount && |magnitudes| == i
        invariant forall k :: 0 <= k < i ==> magnitudes[k] == FFT.Magnitude(realPart[k], imagPart[k], root)
        invariant forall k :: 0 <= k < i ==> 0.0 <= magnitudes[k]
      {
        FFT.MagnitudeNonNegative(realPart[i], imagPart[i], root);
        magnitudes := magnitudes + [FFT.Magnitude(realPart[i], imagPart[i], root)];
        i := i + 1;
      }
    }
  }

  /** The staging loop `input[fftSize - count + i] = samples[i]` on a zero buffer. */
  method Stage(samples: seq<real>) returns (input: seq<real>)
    ensures input == CliStaged(samples)
  {
    var count := MinInt(|samples|, FFT.FftSize);
    var buffer := new real[FFT.FftSize](_ => 0.0);
    var i := 0;
    while i < count
      invariant 0 <= i <= count
      invariant forall k :: 0 <= k < FFT.FftSize - count ==> buffer[k] == 0.0
      invariant forall k :: FFT.FftSize - count <= k < FFT.FftSize - count + i ==> buffer[k] == samples[k - (FFT.FftSize - count)]
      invariant forall k :: FFT.FftSize - count + i <= k < FFT.FftSize ==> buffer[k] == 0.0
    {
      buffer[FFT.FftSize - count + i] := samples[i];
      i := i + 1;
    }
    input := buffer[..];
    assert input == CliStaged(samples) by {
      var w := CliStaged(samples);
      forall k | 0 <= k < FFT.FftSize ensures input[k] == w[k] {
        if k >= FFT.FftSize - count {
          assert w[k] == samples[..count][k - (FFT.FftSize - count)];
        }
      }
    }
  }
}
