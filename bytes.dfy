/** Fixed-width integers of the ESP32 target and their little-endian byte
    encodings. The target is little-endian, so copying a `uint16_t`/`uint32_t`
    to a file byte by byte writes its least significant byte first. */
module Bytes {

  datatype Option<+T> = None | Some(value: T)

  newtype byte = x: int | 0 <= x < 0x100
  newtype u16 = x: int | 0 <= x < 0x1_0000
  newtype u32 = x: int | 0 <= x < 0x1_0000_0000
  newtype i16 = x: int | -0x8000 <= x < 0x8000

  /** The two bytes of `x`, least significant first. */
  function Le16(x: u16): (r: seq<byte>)
    ensures |r| == 2
  {
    [(x % 0x100) as byte, (x / 0x100) as byte]
  }

  /** Reads back a little-endian 16-bit value. */
  function FromLe16(b: seq<byte>): (x: u16)
    requires |b| == 2
  {
    (b[0] as int + 0x100 * b[1] as int) as u16
  }

  /** The four bytes of `x`, least significant first. */
  function Le32(x: u32): (r: seq<byte>)
    ensures |r| == 4
  {
    Le16((x % 0x1_0000) as u16) + Le16((x / 0x1_0000) as u16)
  }

  /** Reads back a little-endian 32-bit value. */
  function FromLe32(b: seq<byte>): (x: u32)
    requires |b| == 4
  {
    (FromLe16(b[..2]) as int + 0x1_0000 * FromLe16(b[2..]) as int) as u32
  }

  lemma Le16RoundTrip(x: u16)
    ensures FromLe16(Le16(x)) == x
  {
  }

  lemma FromLe16RoundTrip(b: seq<byte>)
    requires |b| == 2
    ensures Le16(FromLe16(b)) == b
  {
  }

  lemma Le32RoundTrip(x: u32)
    ensures FromLe32(Le32(x)) == x
  {
  }

  lemma FromLe32RoundTrip(b: seq<byte>)
    requires |b| == 4
    ensures Le32(FromLe32(b)) == b
  {
  }

  /** The bit pattern of a signed 16-bit value (two's complement). */
  function ToBits(s: i16): (u: u16)
  {
    if s < 0 then (s as int + 0x1_0000) as u16 else s as int as u16
  }

  /** The signed 16-bit value with bit pattern `u`. */
  function FromBits(u: u16): (s: i16)
  {
    if u >= 0x8000 then (u as int - 0x1_0000) as i16 else u as int as i16
  }

  lemma BitsRoundTrip(s: i16)
    ensures FromBits(ToBits(s)) == s
  {
  }
}
