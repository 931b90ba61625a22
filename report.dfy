/**
  Peak selection of `print_vibration_report` in test.py, and the main
  cycle that chains sampling, `compute_fft`, `compute_velocity_mm_s` and
  the report. The printed text is not modelled; the report is the values
  the source prints.
*/
module Report {
  import opened Wrappers
  import Sensor
  import Spectrum
  import Velocity

  /** `k` is where the maximum of `a` first occurs (np.argmax's tie-break). */
  predicate IsFirstMax(a: seq<real>, k: nat)
  {
    && k < |a|
    && (forall j :: 0 <= j < |a| ==> a[j] <= a[k])
    && (forall j :: 0 <= j < k ==> a[j] < a[k])
  }

  /** `np.argmax(amps)` over a non-empty sequence. */
  function ArgMax(a: seq<real>): (k: nat)
    requires |a| > 0
    ensures IsFirstMax(a, k)
  {
    if |a| == 1 then 0
    else
      var k := ArgMax(a[..|a| - 1]);
      if a[|a| - 1] > a[k] then |a| - 1 else k
  }

  /** The first maximum is unique, so the report does not depend on how it is searched for. */
  lemma FirstMaxUnique(a: seq<real>, k1: nat, k2: nat)
    requires IsFirstMax(a, k1) && IsFirstMax(a, k2)
    ensures k1 == k2
  {
    assert a[k1] == a[k2];
  }

  /** A flat spectrum reports its lowest bin. */
  lemma FlatSpectrumPicksFirstBin(a: seq<real>)
    requires |a| > 0
    requires forall j :: 0 <= j < |a| ==> a[j] == a[0]
    ensures ArgMax(a) == 0
  {
  }

  /** The dominant bin: its index, frequency (Hz), amplitude (g) and velocity (mm/s). */
  datatype VibrationReport = VibrationReport(index: nat, frequency: real, amplitude: real, velocity: real)

  datatype ReportError =
    | EmptySpectrum    // np.argmax of an empty sequence
    | IndexOutOfRange  // freqs or vels shorter than the chosen index

  /** `print_vibration_report(freqs, amps, vels)`, without the printing. */
  function DominantBin(freqs: seq<real>, amps: seq<real>, vels: seq<real>): (r: Result<VibrationReport, ReportError>)
    ensures r == Failure(EmptySpectrum) <==> |amps| == 0
    ensures r.Success? <==> |amps| > 0 && ArgMax(amps) < |freqs| && ArgMax(amps) < |vels|
    ensures r.Success? ==>
      && IsFirstMax(amps, r.value.index)
      && r.value.index < |freqs| && r.value.index < |vels|
      && r.value.frequency == freqs[r.value.index]
      && r.value.amplitude == amps[r.value.index]
      && r.value.velocity == vels[r.value.index]
  {
    if |amps| == 0 then Failure(EmptySpectrum)
    else
      var idx := ArgMax(amps);
      if idx >= |freqs| || idx >= |vels| then Failure(IndexOutOfRange)
      else Success(VibrationReport(idx, freqs[idx], amps[idx], vels[idx]))
  }

  datatype CycleError =
    | SamplingFailed(s: Sensor.SampleError)
    | SpectrumFailed(e: Spectrum.SpectrumError)
    | ReportFailed(r: ReportError)

  /**
    `compute_velocity_mm_s` followed by `print_vibration_report` on one
    spectrum, as the main block of test.py chains them.
  */
  method Summarize(spectrum: Spectrum.Spectrum, pi: real) returns (r: Result<VibrationReport, ReportError>)
    requires |spectrum.frequencies| == |spectrum.amplitudes|
    requires pi > 0.0
    ensures r.Success? <==> |spectrum.amplitudes| > 0
    ensures r.Failure? ==> r.error == EmptySpectrum
    ensures r.Success? ==>
      && IsFirstMax(spectrum.amplitudes, r.value.index)
      && r.value.frequency == spectrum.frequencies[r.value.index]
      && r.value.amplitude == spectrum.amplitudes[r.value.index]
      && r.value.velocity == Velocity.BinVelocity(r.value.frequency, r.value.amplitude, pi)
  {
    var freqs, amps := spectrum.frequencies, spectrum.amplitudes;
    var vels := Velocity.ComputeVelocity(freqs, amps, pi);
    r := DominantBin(freqs, amps, vels);
    if r.Success? {
      var k := r.value.index;
      assert r.value.velocity == Velocity.BinVelocity(freqs[k], amps[k], pi);
    }
  }

  /**
    The main block of test.py: sample, transform, integrate, report.
    `blocks` are the successive six-byte reads of the sensor.
  */
  method RunCycle(blocks: seq<seq<Sensor.byte>>, sampleRate: real, lib: Spectrum.FftLibrary,
                  sqrt: real -> real, pi: real)
    returns (r: Result<VibrationReport, CycleError>)
    requires forall i :: 0 <= i < |blocks| ==> |blocks[i]| == 6
    requires Spectrum.Conforms(lib)
    requires pi > 0.0
    ensures r.Success? <==> |blocks| >= 2 && sampleRate > 0.0
    ensures |blocks| == 0 ==> r == Failure(SpectrumFailed(Spectrum.EmptySeries))
    ensures |blocks| > 0 && sampleRate == 0.0 ==> r == Failure(SamplingFailed(Sensor.ZeroSampleRate))
    ensures |blocks| > 0 && sampleRate < 0.0 ==> r == Failure(SamplingFailed(Sensor.NegativeSleep))
    ensures |blocks| == 1 && sampleRate > 0.0 ==> r == Failure(ReportFailed(EmptySpectrum))
    ensures r.Success? ==> r.value.index < |blocks| / 2
    ensures r.Success? ==> r.value.velocity == Velocity.BinVelocity(r.value.frequency, r.value.amplitude, pi)
    ensures r.Success? ==>
      var amps := Spectrum.ComputeFft(Sensor.Magnitudes(blocks, sqrt), sampleRate, lib).value.amplitudes;
      && IsFirstMax(amps, r.value.index)
      && r.value.amplitude == amps[r.value.index]
      && r.value.frequency == lib.fftfreq(|blocks|, 1.0 / sampleRate)[r.value.index]
  {
    var sampled := Sensor.SampleAcceleration(blocks, sampleRate, sqrt);
    if sampled.Failure? {
      return Failure(SamplingFailed(sampled.error));
    }
    var spectrum := Spectrum.ComputeFft(sampled.value, sampleRate, lib);
    if spectrum.Failure? {
      return Failure(SpectrumFailed(spectrum.error));
    }
    var report := Summarize(spectrum.value, pi);
    if report.Failure? {
      return Failure(ReportFailed(report.error));
    }
    r := Success(report.value);
  }
}
