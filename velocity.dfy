/**
  `compute_velocity_mm_s` of test.py: single integration in the frequency
  domain, from an acceleration amplitude in g to a velocity in mm/s.
  math.pi is a parameter `pi`, of which only `pi > 0` is assumed.
*/
module Velocity {

  /** Standard gravity used to turn g into m/s^2. */
  const Gravity: real := 9.81

  /** The velocity of one bin: 0 for the 0 Hz bin, a * 9.81 / (2 pi f) * 1000 otherwise. */
  function BinVelocity(f: real, a: real, pi: real): (v: real)
    requires pi > 0.0
    ensures f == 0.0 ==> v == 0.0
    ensures f > 0.0 ==> (v > 0.0 <==> a > 0.0) && (v == 0.0 <==> a == 0.0)
  {
    if f == 0.0 then 0.0 else a * Gravity / (2.0 * pi * f) * 1000.0
  }

  /** Differentiating the velocity again gives back the acceleration amplitude of a non-zero bin. */
  lemma AmplitudeFromVelocity(f: real, a: real, pi: real)
    requires pi > 0.0 && f != 0.0
    ensures BinVelocity(f, a, pi) * (2.0 * pi * f) / (Gravity * 1000.0) == a
  {
    var w := 2.0 * pi * f;
    assert w != 0.0;
    calc {
      BinVelocity(f, a, pi) * w;
      (a * Gravity / w * 1000.0) * w;
      { assert a * Gravity / w * w == a * Gravity; }
      a * Gravity * 1000.0;
    }
  }

  /** At a positive frequency a larger amplitude never gives a smaller velocity; at 0 Hz it is always 0. */
  lemma BinVelocityMonotone(f: real, a1: real, a2: real, pi: real)
    requires pi > 0.0 && f >= 0.0 && a1 <= a2
    ensures BinVelocity(f, a1, pi) <= BinVelocity(f, a2, pi)
    ensures f == 0.0 ==> BinVelocity(f, a1, pi) == 0.0
  {
    if f != 0.0 {
      var w := 2.0 * pi * f;
      assert w > 0.0;
      assert a1 * Gravity <= a2 * Gravity;
      assert a1 * Gravity / w <= a2 * Gravity / w;
    }
  }

  /**
    `compute_velocity_mm_s(frequencies, acc_amplitudes)`. The source reads
    `acc_amplitudes[i]` only for a non-zero frequency, so only those
    indices must exist.
  */
  method ComputeVelocity(frequencies: seq<real>, amplitudes: seq<real>, pi: real) returns (velocities: seq<real>)
    requires pi > 0.0
    requires forall i :: 0 <= i < |frequencies| && frequencies[i] != 0.0 ==> i < |amplitudes|
    ensures |velocities| == |frequencies|
    ensures forall i :: 0 <= i < |frequencies| && frequencies[i] == 0.0 ==> velocities[i] == 0.0
    ensures forall i :: 0 <= i < |frequencies| && frequencies[i] != 0.0 ==>
      velocities[i] == amplitudes[i] * 9.81 / (2.0 * pi * frequencies[i]) * 1000.0
  {
    velocities := [];
    for i := 0 to |frequencies|
      invariant |velocities| == i
      invariant forall j :: 0 <= j < i ==> velocities[j] == if frequencies[j] == 0.0 then 0.0
                                              else BinVelocity(frequencies[j], amplitudes[j], pi)
    {
      var f := frequencies[i];
      if f == 0.0 {
        velocities := velocities + [0.0];
        continue;
      }
      var accMs2 := amplitudes[i] * Gravity;
      var v := accMs2 / (2.0 * pi * f);
      velocities := velocities + [v * 1000.0];
    }
  }
}
