/**
  `compute_fft` of test.py: DC removal, the transform, and the truncation
  to the first N div 2 bins. The transform, the frequency grid and the
  complex modulus come from scipy and numpy; they are passed in as an
  `FftLibrary` whose only promised property is the length of what it returns.
*/
module Spectrum {
  import opened Wrappers

  datatype Complex = Complex(re: real, im: real)

  /** scipy.fft.fft, scipy.fft.fftfreq and np.abs on one complex coefficient. */
  datatype FftLibrary = FftLibrary(
    fft: seq<real> -> seq<Complex>,
    fftfreq: (nat, real) -> seq<real>,
    abs: Complex -> real)

  /** scipy's length contract: fft keeps the length, fftfreq(n, d) has n entries. */
  ghost predicate Conforms(lib: FftLibrary)
  {
    && (forall x: seq<real> :: |lib.fft(x)| == |x|)
    && (forall n: nat, d: real :: |lib.fftfreq(n, d)| == n)
  }

  function Sum(s: seq<real>): real
  {
    if s == [] then 0.0 else s[0] + Sum(s[1..])
  }

  /** `np.mean`: the value whose `|s|` copies add up to the sum of `s`. */
  function Mean(s: seq<real>): (m: real)
    requires |s| > 0
    ensures m * |s| as real == Sum(s)
  {
    Sum(s) / |s| as real
  }

  /** Every element shifted down by `c`. */
  function Shift(s: seq<real>, c: real): (r: seq<real>)
    ensures |r| == |s|
    ensures forall i :: 0 <= i < |s| ==> r[i] == s[i] - c
  {
    seq(|s|, i requires 0 <= i < |s| => s[i] - c)
  }

  lemma {:induction false} SumShift(s: seq<real>, c: real)
    ensures Sum(Shift(s, c)) == Sum(s) - |s| as real * c
  {
    if s != [] {
      assert Shift(s, c)[1..] == Shift(s[1..], c);
      SumShift(s[1..], c);
    }
  }

  /** `acc_samples - np.mean(acc_samples)`: the de-meaned series has the same length and sums to zero. */
  function RemoveDc(s: seq<real>): (r: seq<real>)
    requires |s| > 0
    ensures |r| == |s|
    ensures Sum(r) == 0.0
  {
    SumShift(s, Mean(s));
    Shift(s, Mean(s))
  }

  /** The de-meaned series has mean zero, and removing the offset a second time changes nothing. */
  lemma RemoveDcIdempotent(s: seq<real>)
    requires |s| > 0
    ensures Mean(RemoveDc(s)) == 0.0
    ensures RemoveDc(RemoveDc(s)) == RemoveDc(s)
  {
    var r := RemoveDc(s);
    assert Mean(r) == 0.0;
    assert RemoveDc(r) == Shift(r, 0.0);
  }

  datatype SpectrumError =
    | EmptySeries     // scipy's fft refuses zero data points
    | ZeroSampleRate  // `1 / sample_rate` divides by zero

  /** Index-aligned frequencies (Hz) and amplitudes (g). */
  datatype Spectrum = Spectrum(frequencies: seq<real>, amplitudes: seq<real>)

  /** `compute_fft(acc_samples, sample_rate)`. */
  function ComputeFft(samples: seq<real>, sampleRate: real, lib: FftLibrary): (r: Result<Spectrum, SpectrumError>)
    requires Conforms(lib)
    ensures r == Failure(EmptySeries) <==> |samples| == 0
    ensures r == Failure(ZeroSampleRate) <==> |samples| > 0 && sampleRate == 0.0
    ensures r.Success? ==>
      && |r.value.frequencies| == |samples| / 2
      && |r.value.amplitudes| == |samples| / 2
    ensures r.Success? ==>
      forall k :: 0 <= k < |samples| / 2 ==>
        && r.value.frequencies[k] == lib.fftfreq(|samples|, 1.0 / sampleRate)[k]
        && r.value.amplitudes[k] == lib.abs(lib.fft(RemoveDc(samples))[k])
  {
    var n := |samples|;
    if n == 0 then Failure(EmptySeries)
    else
      var yf := lib.fft(RemoveDc(samples));
      if sampleRate == 0.0 then Failure(ZeroSampleRate)
      else
        var xf := lib.fftfreq(n, 1.0 / sampleRate);
        var amplitudes := seq(n / 2, k requires 0 <= k < n / 2 => lib.abs(yf[k]));
        Success(Spectrum(xf[0..n / 2], amplitudes))
  }
}
