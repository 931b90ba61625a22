/**
  The accelerometer side of test.py: decoding the sensor's little-endian
  register pairs (`convert` inside `read_axes`) and the acquisition loop of
  `sample_acceleration`. The I2C bus is not modelled: the six bytes of a
  block read, and the successive reads of a sampling run, are inputs.
*/
module Sensor {
  import opened Wrappers

  newtype byte = x: int | 0 <= x < 256

  /** Scale factor of the sensor, in g per least significant bit. */
  const Scale: real := 0.0039

  /**
    `(hi << 8) | lo`. The shift multiplies by 2^8 and leaves the low eight
    bits zero, so or-ing in a byte below 2^8 adds it.
  */
  function Word(lo: byte, hi: byte): (w: int)
    ensures 0 <= w < 65536
  {
    hi as int * 256 + lo as int
  }

  /** Bit `k` of a non-negative number. */
  function Bit(v: nat, k: nat): (b: nat)
    ensures b < 2
  {
    (v / Pow2(k)) % 2
  }

  function Pow2(k: nat): (p: nat)
    ensures p >= 1
  {
    if k == 0 then 1 else 2 * Pow2(k - 1)
  }

  /** For a 16-bit word, bit 15 is the sign bit: it is set exactly from 2^15 upwards. */
  lemma SignBit(w: nat)
    requires w < 65536
    ensures Bit(w, 15) == 1 <==> w >= 32768
  {
    assert Pow2(15) == 32768 by {
      assert Pow2(4) == 16;
      assert Pow2(8) == 256;
      assert Pow2(12) == 4096;
    }
    assert 0 <= w / 32768 < 2;
  }

  /** Two's-complement interpretation of the word: subtract 2^16 when bit 15 is set. */
  function Raw(lo: byte, hi: byte): (v: int)
    ensures -32768 <= v <= 32767
    ensures v == if hi < 128 then hi as int * 256 + lo as int
                 else hi as int * 256 + lo as int - 65536
  {
    var w := Word(lo, hi);
    SignBit(w);
    if Bit(w, 15) == 1 then w - 65536 else w
  }

  /** `convert(lo, hi)`: the decoded value in g. */
  function Convert(lo: byte, hi: byte): (g: real)
    ensures -32768.0 * Scale <= g <= 32767.0 * Scale
    ensures g < 0.0 <==> hi >= 128
  {
    Raw(lo, hi) as real * Scale
  }

  /** The register pair that stores a 16-bit signed value: decoding it gives the value back. */
  function Encode(v: int): (p: (byte, byte))
    requires -32768 <= v <= 32767
    ensures Word(p.0, p.1) == v % 65536
    ensures Raw(p.0, p.1) == v
  {
    var u := v % 65536;
    assert u == if v >= 0 then v else v + 65536;
    assert u == (u / 256) * 256 + u % 256;
    var lo, hi := (u % 256) as byte, (u / 256) as byte;
    assert Word(lo, hi) == u;
    assert hi >= 128 <==> u >= 32768;
    (lo, hi)
  }

  lemma EncodeRaw(lo: byte, hi: byte)
    ensures Encode(Raw(lo, hi)) == (lo, hi)
  {
    var u := Word(lo, hi);
    var v := Raw(lo, hi);
    assert v == u || v == u - 65536;
    assert v % 65536 == u by {
      WrapWord(v, u);
    }
    DivModByte(hi as int, lo as int);
    assert Encode(v).0 == lo && Encode(v).1 == hi;
  }

  lemma WrapWord(v: int, u: int)
    requires 0 <= u < 65536
    requires v == u || v == u - 65536
    ensures v % 65536 == u
  {
  }

  lemma DivModByte(q: int, r: int)
    requires 0 <= r < 256
    ensures (q * 256 + r) / 256 == q && (q * 256 + r) % 256 == r
  {
  }

  /** Distinct register pairs decode to distinct accelerations. */
  lemma ConvertInjective(lo1: byte, hi1: byte, lo2: byte, hi2: byte)
    requires Convert(lo1, hi1) == Convert(lo2, hi2)
    ensures lo1 == lo2 && hi1 == hi2
  {
    EncodeRaw(lo1, hi1);
    EncodeRaw(lo2, hi2);
  }

  /** One triaxial read, in g. */
  datatype Axes = Axes(x: real, y: real, z: real)

  /** `read_axes`, given the six bytes of the block read starting at register 0x32. */
  function ReadAxes(data: seq<byte>): (a: Axes)
    requires |data| == 6
    ensures a.x == Raw(data[0], data[1]) as real * Scale
    ensures a.y == Raw(data[2], data[3]) as real * Scale
    ensures a.z == Raw(data[4], data[5]) as real * Scale
  {
    Axes(Convert(data[0], data[1]), Convert(data[2], data[3]), Convert(data[4], data[5]))
  }

  /** Distinct blocks give distinct reads. */
  lemma ReadAxesInjective(d1: seq<byte>, d2: seq<byte>)
    requires |d1| == 6 && |d2| == 6
    requires ReadAxes(d1) == ReadAxes(d2)
    ensures d1 == d2
  {
    ConvertInjective(d1[0], d1[1], d2[0], d2[1]);
    ConvertInjective(d1[2], d1[3], d2[2], d2[3]);
    ConvertInjective(d1[4], d1[5], d2[4], d2[5]);
    assert forall i :: 0 <= i < 6 ==> d1[i] == d2[i];
  }

  function NormSquared(a: Axes): (r: real)
    ensures r >= 0.0
  {
    a.x * a.x + a.y * a.y + a.z * a.z
  }

  /** The magnitude `sqrt(x^2 + y^2 + z^2)` of each block's read, in read order. */
  function Magnitudes(blocks: seq<seq<byte>>, sqrt: real -> real): (m: seq<real>)
    requires forall i :: 0 <= i < |blocks| ==> |blocks[i]| == 6
    ensures |m| == |blocks|
    ensures forall i :: 0 <= i < |blocks| ==> m[i] == sqrt(NormSquared(ReadAxes(blocks[i])))
  {
    seq(|blocks|, i requires 0 <= i < |blocks| => sqrt(NormSquared(ReadAxes(blocks[i]))))
  }

  datatype SampleError =
    | ZeroSampleRate     // `1.0 / sample_rate` divides by zero
    | NegativeSleep      // time.sleep refuses a negative length

  /**
    `sample_acceleration(n_samples, sample_rate)`: one magnitude per block
    read, in acquisition order. `blocks` holds the bytes of the successive
    reads (its length is `n_samples`) and `sqrt` stands for math.sqrt. The
    pause after each read is not modelled, but its argument
    `1.0 / sample_rate` is: after the first read it fails for a rate of 0 or below.
  */
  method SampleAcceleration(blocks: seq<seq<byte>>, sampleRate: real, sqrt: real -> real)
    returns (r: Result<seq<real>, SampleError>)
    requires forall i :: 0 <= i < |blocks| ==> |blocks[i]| == 6
    ensures r.Success? <==> |blocks| == 0 || sampleRate > 0.0
    ensures r == Failure(ZeroSampleRate) <==> |blocks| > 0 && sampleRate == 0.0
    ensures r == Failure(NegativeSleep) <==> |blocks| > 0 && sampleRate < 0.0
    ensures r.Success? ==> r.value == Magnitudes(blocks, sqrt)
  {
    var samples := [];
    var k := 0;
    while k < |blocks|
      invariant 0 <= k <= |blocks|
      invariant k > 0 ==> sampleRate > 0.0
      invariant |samples| == k
      invariant forall i :: 0 <= i < k ==> samples[i] == sqrt(NormSquared(ReadAxes(blocks[i])))
    {
      var a := ReadAxes(blocks[k]);
      samples := samples + [sqrt(NormSquared(a))];
      if sampleRate == 0.0 {
        return Failure(ZeroSampleRate);
      }
      if 1.0 / sampleRate < 0.0 {
        return Failure(NegativeSleep);
      }
      k := k + 1;
    }
    r := Success(samples);
  }
}
