/** Signed 16-bit mono PCM: the byte image of a sample buffer written to the
    file, and the peak level computed for the level meter. */
module Pcm {
  import opened Bytes

  /** Capacity of `audioBuffer` (BUFFER_SIZE). */
  const BufferSize: nat := 1024
  /** sizeof(int16_t). */
  const BytesPerSample: nat := 2

  /** The two bytes one sample occupies in memory, and so in the file. */
  function SampleBytes(s: i16): (r: seq<byte>)
    ensures |r| == BytesPerSample
  {
    Le16(ToBits(s))
  }

  /** The bytes of `(uint8_t*)audioBuffer` for the first |samples| samples. */
  function Encode(samples: seq<i16>): (r: seq<byte>)
    ensures |r| == BytesPerSample * |samples|
  {
    if samples == [] then [] else SampleBytes(samples[0]) + Encode(samples[1..])
  }

  /** Reads a byte string back as samples, two bytes each. */
  function Decode(bytes: seq<byte>): (r: seq<i16>)
    requires |bytes| % BytesPerSample == 0
    ensures BytesPerSample * |r| == |bytes|
  {
    if bytes == [] then [] else [FromBits(FromLe16(bytes[..2]))] + Decode(bytes[2..])
  }

  /** Nothing is lost or reordered by storing samples as bytes. */
  lemma {:induction false} DecodeEncode(samples: seq<i16>)
    ensures Decode(Encode(samples)) == samples
  {
    if samples != [] {
      var e := Encode(samples);
      assert e[..2] == SampleBytes(samples[0]);
      assert e[2..] == Encode(samples[1..]);
      Le16RoundTrip(ToBits(samples[0]));
      BitsRoundTrip(samples[0]);
      DecodeEncode(samples[1..]);
    }
  }

  /** Writing two chunks one after the other gives the same bytes as writing
      them as one: the file contents do not depend on chunk boundaries. */
  lemma {:induction false} EncodeAppend(a: seq<i16>, b: seq<i16>)
    ensures Encode(a + b) == Encode(a) + Encode(b)
  {
    if a != [] {
      assert (a + b)[1..] == a[1..] + b;
      EncodeAppend(a[1..], b);
    } else {
      assert a + b == b;
    }
  }

  /** `int16_t absValue = abs(s)`: `abs` works on `int`, so abs(-32768) is
      32768, which the narrowing back to int16_t wraps to -32768. */
  function AbsLevel(s: i16): (r: i16)
    ensures (r as int - (if s < 0 then -(s as int) else s as int)) % 0x1_0000 == 0
    ensures s != -0x8000 ==> r >= 0
  {
    if s == -0x8000 then s else if s < 0 then -s else s
  }

  /** The value `maxLevel` ends with after scanning `samples` in order,
      starting from 0. */
  function MaxLevel(samples: seq<i16>): (m: i16)
    ensures m >= 0
  {
    if samples == [] then 0
    else
      var m := MaxLevel(samples[..|samples| - 1]);
      var a := AbsLevel(samples[|samples| - 1]);
      if a > m then a else m
  }

  /** The meter reading is not negative, is at least the magnitude of every
      sample other than -32768, and is either 0 or one of those magnitudes. */
  lemma {:induction false} MaxLevelIsPeak(samples: seq<i16>)
    ensures MaxLevel(samples) >= 0
    ensures forall i :: 0 <= i < |samples| ==> AbsLevel(samples[i]) <= MaxLevel(samples)
    ensures forall i :: 0 <= i < |samples| && samples[i] != -0x8000 ==>
              (if samples[i] < 0 then -samples[i] else samples[i]) <= MaxLevel(samples)
    ensures MaxLevel(samples) == 0 ||
            exists i :: 0 <= i < |samples| && AbsLevel(samples[i]) == MaxLevel(samples)
  {
    if samples != [] {
      var n := |samples| - 1;
      var init := samples[..n];
      MaxLevelIsPeak(init);
      assert forall i :: 0 <= i < n ==> samples[i] == init[i];
      if MaxLevel(init) != 0 && MaxLevel(samples) == MaxLevel(init) {
        var j :| 0 <= j < |init| && AbsLevel(init[j]) == MaxLevel(init);
        assert AbsLevel(samples[j]) == MaxLevel(samples);
      }
    }
  }

  /** A full-scale negative sample alone leaves the meter at 0. */
  lemma FullScaleNegativeReadsZero()
    ensures MaxLevel([-0x8000]) == 0
  {
    assert [-0x8000 as i16][..0] == [];
  }

  /** The peak loop over `audioBuffer[0..len)`. */
  method PeakLevel(buffer: array<i16>, len: nat) returns (maxLevel: i16)
    requires len <= buffer.Length
    ensures maxLevel == MaxLevel(buffer[..len])
  {
    maxLevel := 0;
    var i := 0;
    while i < len
      invariant 0 <= i <= len
      invariant maxLevel == MaxLevel(buffer[..i])
    {
      var absValue := AbsLevel(buffer[i]);
      assert buffer[..i + 1][..i] == buffer[..i];
      if absValue > maxLevel {
        maxLevel := absValue;
      }
      i := i + 1;
    }
  }
}
