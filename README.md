# Accelerometer vibration monitor — Dafny model

This project models the two pieces of logic of the vibration monitor:

- `test.py`, the analysis script: decoding the ADXL345's little-endian
  16-bit two's-complement registers into g (`convert` inside `read_axes`),
  collecting one magnitude per read (`sample_acceleration`), removing the DC
  offset and keeping the first N div 2 bins of the transform
  (`compute_fft`), integrating acceleration to velocity bin by bin
  (`compute_velocity_mm_s`), and picking the dominant bin
  (`print_vibration_report`), chained as in the script's main block.
- `UI.py`, the live display: a `LiveGraph` holding at most 50
  `(velocity, frequency)` points with first-in-first-out eviction, and a
  `ModeSelector` whose mode (0 idle, 1 calibration, 2 monitoring) gates
  whether points are accepted and clears the graph on every selection.

Files: `wrappers.dfy` (a `Result` type), `sensor.dfy` (module `Sensor`),
`spectrum.dfy` (`Spectrum`), `velocity.dfy` (`Velocity`), `report.dfy`
(`Report`), `ui.dfy` (`UI`, with classes `LiveGraph` and `ModeSelector`).

Modelling choices:

- Floating-point numbers are Dafny `real`s; `math.pi` is a parameter `pi`
  of which only `pi > 0` is assumed; `math.sqrt` is a function parameter.
- scipy's `fft`, `fftfreq` and numpy's complex `abs` are function values in
  an `FftLibrary`; the only property assumed of them (`Conforms`) is scipy's
  length contract: `fft` keeps the length and `fftfreq(n, d)` has `n` entries.
- The I2C bus is not modelled: the six bytes of each block read are inputs,
  and a sampling run is the sequence of its blocks (its length is `n_samples`).
- Errors the Python code raises become `Failure` values, except the
  `IndexError` of `compute_velocity_mm_s` on short amplitudes, which the
  main block cannot reach (see `Velocity.ComputeVelocity` under "Left out"):
  - `time.sleep(1.0 / sample_rate)` runs after every read. So a run with at
    least one read fails while sampling, with a division by zero for a zero
    rate or a refused negative sleep for a negative rate.
  - An empty series fails in `compute_fft`, because scipy's `fft` refuses
    zero points. `compute_fft` on its own also fails on a zero rate
    (`1 / sample_rate`); in the full cycle, sampling fails first.
  - An empty spectrum fails at `np.argmax`, and an index past the end of
    `freqs` or `vels` fails in the report.
- The script raises nothing for `n_samples <= 0`: it returns an empty
  series, which then fails in `compute_fft`. It defines and catches no device,
  timeout or cancellation errors.
- With a positive rate, a cycle with exactly one sample passes
  `compute_fft` and then fails in the report, because N div 2 = 0 bins
  remain (`Report.RunCycle`).
- `LiveGraph` reads `self.parent().mode`; here the graph's methods receive
  the owner's mode as `parentMode`. The report carries the chosen bin's index
  beside the three printed values.

## Model

| member | source | states |
|---|---|---|
| `Sensor.Word` | test.py:22 | `(hi << 8) \| lo` of two bytes is an unsigned 16-bit word |
| `Sensor.SignBit` | test.py:23 | bit 15 of a 16-bit word is set exactly when the word is at least 2^15 |
| `Sensor.Raw` | test.py:21-24 | the decoded raw value lies in [-32768, 32767]; it is `hi*256+lo` when the high byte is below 128 and `hi*256+lo-65536` otherwise |
| `Sensor.Convert` | test.py:21-25 | the value in g lies in [-32768*0.0039, 32767*0.0039] and is negative exactly when the sign bit (high byte >= 128) is set |
| `Sensor.Encode` | test.py:21-24 | the register pair of every value in [-32768, 32767] forms the word `v mod 65536`, and decoding the pair gives the value back; with EncodeRaw, decoding is a bijection |
| `Sensor.EncodeRaw` | test.py:21-24 | encoding the decoded value gives back the byte pair |
| `Sensor.ConvertInjective` | test.py:21-25 | distinct byte pairs convert to distinct accelerations |
| `Sensor.ReadAxes` | test.py:18-30 | x, y and z are bytes (0,1), (2,3) and (4,5) of the block, each decoded and scaled by 0.0039 |
| `Sensor.ReadAxesInjective` | test.py:27-30 | two blocks that give the same three axes are the same block |
| `Sensor.NormSquared` | test.py:37 | the squared norm under the square root is never negative |
| `Sensor.SampleAcceleration` | test.py:33-40 | fails exactly when there is at least one read and the rate is 0 (division by zero) or negative (negative sleep); otherwise the samples are `Magnitudes` of the reads |
| `Sensor.Magnitudes` | test.py:35-38 | one sample per read, in read order, each the square root of `x^2+y^2+z^2` of that read |
| `Spectrum.Mean` | test.py:45 | `np.mean`: `\|s\|` copies of the mean add up to the sum of the series |
| `Spectrum.Shift` | test.py:45 | subtracting a constant keeps the length and shifts every element |
| `Spectrum.SumShift` | test.py:45 | subtracting `c` from each of n elements lowers the sum by `n*c` |
| `Spectrum.RemoveDc` | test.py:44-45 | the de-meaned series has the input's length and sums to 0 |
| `Spectrum.RemoveDcIdempotent` | test.py:45 | the de-meaned series has mean 0, and removing the offset again changes nothing |
| `Spectrum.ComputeFft` | test.py:43-50 | fails exactly on an empty series or a zero rate; otherwise frequencies and amplitudes both have N div 2 entries, bin k being `fftfreq(N, 1/rate)[k]` and the modulus of bin k of the transform of the de-meaned series |
| `Velocity.BinVelocity` | test.py:56-61 | the velocity of a 0 Hz bin is 0; at a positive frequency the velocity is positive exactly when the amplitude is, and zero exactly when the amplitude is |
| `Velocity.AmplitudeFromVelocity` | test.py:59-61 | for a non-zero frequency the velocity times `2*pi*f/(9.81*1000)` gives back the acceleration amplitude |
| `Velocity.BinVelocityMonotone` | test.py:56-61 | at a non-negative frequency velocity does not decrease with amplitude, and the 0 Hz bin is 0 whatever its amplitude |
| `Velocity.ComputeVelocity` | test.py:53-62 | one velocity per frequency; 0 where the frequency is 0, `amps[i]*9.81/(2*pi*f)*1000` elsewhere; amplitudes are only required where the frequency is non-zero |
| `Report.ArgMax` | test.py:66 | the index is in range, its amplitude is at least every amplitude and strictly above every amplitude at a lower index |
| `Report.FirstMaxUnique` | test.py:66 | at most one index is a first maximum, so the choice is deterministic |
| `Report.FlatSpectrumPicksFirstBin` | test.py:66 | when all amplitudes are equal the lowest bin is chosen |
| `Report.DominantBin` | test.py:65-73 | fails on empty amplitudes or when the chosen index is past `freqs` or `vels`; otherwise frequency, amplitude and velocity are all read at the first maximum of the amplitudes |
| `Report.Summarize` | test.py:79-80 | on a spectrum from `compute_fft` the report exists exactly when there is a bin, and its velocity is the integration of its own amplitude at its own frequency |
| `Report.RunCycle` | test.py:76-80 | the whole cycle succeeds exactly with at least two samples and a positive rate; no samples fail in the transform; with samples, a zero or negative rate fails in sampling; one sample at a positive rate fails in the report; on success the chosen bin is below N div 2 and is the first maximum of the amplitudes `compute_fft` gives for the magnitudes of the reads, its amplitude is the amplitude there, its frequency is entry `index` of `fftfreq(N, 1/rate)`, and its velocity is the integration of that amplitude at that frequency |
| `UI.LastN` | UI.py:23-25 | the window has `min(n, len)` elements and they are the last ones, in order |
| `UI.LastNAppend` | UI.py:23-25 | trimming the buffer before appending more points does not change the resulting window |
| `UI.FeedWindow` | UI.py:23-25 | after any number of appends the buffer holds the last 50 of all points fed, and never more than 50 |
| `UI.FeedOne` | UI.py:23-25 | from an empty graph, the fed window is the last 50 points, and one more point moves it exactly as one append with eviction does |
| `UI.LiveGraph.constructor` | UI.py:10-16 | a new graph has no points |
| `UI.LiveGraph.UpdateData` | UI.py:18-26 | in an inactive mode the buffer ends empty; in mode 1 or 2 it is the last 50 of the old buffer plus the point, the point is last, the oldest is dropped only when 50 were held, and at most 50 remain |
| `UI.LiveGraph.PaintEvent` | UI.py:36-38 | the clearing branch empties the buffer in an inactive mode and leaves it unchanged otherwise |
| `UI.ModeSelector.constructor` | UI.py:79-82 | the selector starts in mode 0 with an empty graph |
| `UI.ModeSelector.ModeSelected` | UI.py:119-124 | the mode becomes the selected one and the graph is empty |
| `UI.ModeSelector.GenerateLiveData` | UI.py:134-138 | the mode never changes; in mode 0 the graph is untouched; in mode 1 or 2 the point is appended exactly as `update_data` does, and the graph stays what feeding all points received since the last selection leaves |
| `UI.ModeSelector.Repaint` | UI.py:36-41 | under the selector's invariant (an inactive mode has an empty graph) the clearing branch of `paintEvent` never removes a point |

## Left out

- The I2C bus (`smbus.SMBus`, the register write that starts measurement, the block read): hardware I/O; block contents are inputs.
- The pause of `time.sleep` in `sample_acceleration`: real time is not modelled; of the errors of `time.sleep(1.0 / sample_rate)`, only its division by zero and its refusal of a negative length are.
- The transform itself: scipy's `fft` and `fftfreq` are function parameters; frequency ordering, `frequencies[0] == 0` and `freq[k] = k*rate/N` are scipy's contract and not stated.
- Spectrum.ComputeFft: states no property of the frequency grid beyond its length and that it is read from `fftfreq`, because the grid is computed by scipy.
- Sensor.SampleAcceleration: the square root is an arbitrary function parameter, so nothing is claimed about its value.
- Sensor.SampleAcceleration and Report.RunCycle: the `OverflowError` that `time.sleep` raises when the pause does not fit CPython's 64-bit nanosecond count (a rate below about 1.08e-10 Hz) is not modelled; both report success for every positive rate, because that limit belongs to the Python runtime, not to the script.
- Floating-point rounding, `np.abs` on complex numbers and the value of `math.pi`: reals and parameters stand for them.
- The text of the report (`print` in `print_vibration_report`, `perform_action`, `mode_selected`): presentation only.
- Qt drawing in `paintEvent` (lines, axes, labels, the scaling with its `+1e-5`), widget layout, the `QTimer` and `random.uniform`: UI rendering, timers and randomness; the two random values (in [0, 100] and [0, 500] in the source) are unrestricted arguments.
- Device I/O errors, read timeouts and cancellation: the code defines and catches none of them; an `OSError` raised by the bus read (`bus.read_i2c_block_data`, when a transfer fails) is left out along with the bus.
- Velocity.ComputeVelocity: the `IndexError` raised when `acc_amplitudes` is shorter than `frequencies` at a non-zero frequency is not modelled; a `requires` excludes it, because the only caller, the main block, passes the two equal-length outputs of `compute_fft`.
