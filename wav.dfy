/** The canonical 44-byte PCM WAV header (RIFF chunk, `fmt ` chunk with
    format tag 1, `data` chunk), its field computation and its byte image. */
module Wav {
  import opened Bytes

  const SampleRate: u32 := 16000
  const Channels: u16 := 1
  const BitDepth: u16 := 16
  /** sizeof(WAVHeader): the struct has no padding. */
  const HeaderSize: nat := 44

  const RiffTag: seq<byte> := [0x52, 0x49, 0x46, 0x46]  // "RIFF"
  const WaveTag: seq<byte> := [0x57, 0x41, 0x56, 0x45]  // "WAVE"
  const FmtTag: seq<byte> := [0x66, 0x6d, 0x74, 0x20]   // "fmt "
  const DataTag: seq<byte> := [0x64, 0x61, 0x74, 0x61]  // "data"

  /** The numeric members of the header struct, in struct order; the four
      tag arrays never change and appear only in the byte image. */
  datatype WavHeader = WavHeader(
    wavSize: u32,
    fmtChunkSize: u32,
    audioFormat: u16,
    numChannels: u16,
    sampleRate: u32,
    byteRate: u32,
    blockAlign: u16,
    bitsPerSample: u16,
    dataSize: u32)

  /** The global `wavHeader` before any call: default member initialisers
      for fmtChunkSize and audioFormat, zero for the rest. */
  const Blank := WavHeader(0, 16, 1, 0, 0, 0, 0, 0, 0)

  /** The member initialisers fix the format chunk as 16 bytes of PCM; the
      sizes are zero, so the untouched header is not yet well formed. */
  lemma BlankDefaults()
    ensures Blank.fmtChunkSize == 16 && Blank.audioFormat == 1
    ensures Blank.dataSize == 0 && Blank.wavSize == 0 && !WellFormed(Blank)
  {
  }

  /** What a reader of a PCM WAV file relies on: a 16-byte PCM format chunk,
      block alignment and byte rate derived from the format, and a RIFF size
      covering the 36 header bytes after it plus the data. */
  predicate WellFormed(h: WavHeader)
  {
    h.fmtChunkSize == 16 && h.audioFormat == 1 &&
    h.blockAlign as int == h.numChannels as int * (h.bitsPerSample as int / 8) &&
    h.byteRate as int == h.sampleRate as int * h.blockAlign as int &&
    h.wavSize as int == 36 + h.dataSize as int
  }

  /** initWAVHeader: fills in the format for 16 kHz mono 16-bit audio and
      the provisional sizes of an empty data chunk. */
  function InitWavHeader(h: WavHeader): (r: WavHeader)
    ensures r.fmtChunkSize == h.fmtChunkSize && r.audioFormat == h.audioFormat
    ensures h.fmtChunkSize == 16 && h.audioFormat == 1 ==> WellFormed(r)
    ensures r.numChannels == 1 && r.sampleRate == 16000 && r.bitsPerSample == 16
    ensures r.byteRate == 32000 && r.blockAlign == 2
    ensures r.dataSize == 0 && r.wavSize == 36
  {
    h.(numChannels := Channels,
       sampleRate := SampleRate,
       bitsPerSample := BitDepth,
       byteRate := (SampleRate as int * Channels as int * (BitDepth as int / 8)) as u32,
       blockAlign := (Channels as int * (BitDepth as int / 8)) as u16,
       dataSize := 0,
       wavSize := 36)
  }

  /** The header written when a recording starts. */
  const ProvisionalHeader := InitWavHeader(Blank)

  /** initWAVHeader overwrites every member that a recording changes, so a
      second recording starts from the same header as the first. */
  lemma InitWavHeaderResets(h: WavHeader)
    requires h.fmtChunkSize == 16 && h.audioFormat == 1
    ensures InitWavHeader(h) == ProvisionalHeader
  {
  }

  /** The patch at stop: sizes for `bytesWritten` bytes of data. */
  function Finalize(h: WavHeader, bytesWritten: u32): (r: WavHeader)
    requires bytesWritten as int + 36 < 0x1_0000_0000
    ensures r.dataSize == bytesWritten && r.wavSize as int == 36 + bytesWritten as int
    ensures r.(dataSize := h.dataSize, wavSize := h.wavSize) == h
    ensures WellFormed(h) ==> WellFormed(r)
  {
    h.(dataSize := bytesWritten, wavSize := (36 + bytesWritten as int) as u32)
  }

  /** `(uint8_t*)&wavHeader`: the 44 bytes of the struct in memory. */
  function Serialize(h: WavHeader): (r: seq<byte>)
    ensures |r| == HeaderSize
  {
    RiffTag + Le32(h.wavSize) + WaveTag +
    FmtTag + Le32(h.fmtChunkSize) + Le16(h.audioFormat) + Le16(h.numChannels) +
    Le32(h.sampleRate) + Le32(h.byteRate) + Le16(h.blockAlign) + Le16(h.bitsPerSample) +
    DataTag + Le32(h.dataSize)
  }

  /** Where each member lands in the 44 bytes: the four tags at offsets 0, 8,
      12 and 36, every number little-endian at its struct offset. */
  lemma SerializeLayout(h: WavHeader)
    ensures Serialize(h)[0..4] == RiffTag && Serialize(h)[8..12] == WaveTag
    ensures Serialize(h)[12..16] == FmtTag && Serialize(h)[36..40] == DataTag
    ensures Serialize(h)[4..8] == Le32(h.wavSize) && Serialize(h)[16..20] == Le32(h.fmtChunkSize)
    ensures Serialize(h)[20..22] == Le16(h.audioFormat) && Serialize(h)[22..24] == Le16(h.numChannels)
    ensures Serialize(h)[24..28] == Le32(h.sampleRate) && Serialize(h)[28..32] == Le32(h.byteRate)
    ensures Serialize(h)[32..34] == Le16(h.blockAlign) && Serialize(h)[34..36] == Le16(h.bitsPerSample)
    ensures Serialize(h)[40..44] == Le32(h.dataSize)
  {
  }

  /** How a WAV reader takes the header apart: the four tags at their
      offsets, every number little-endian. */
  function Parse(b: seq<byte>): Option<WavHeader>
  {
    if |b| == HeaderSize && b[0..4] == RiffTag && b[8..12] == WaveTag &&
       b[12..16] == FmtTag && b[36..40] == DataTag
    then Some(WavHeader(
      FromLe32(b[4..8]), FromLe32(b[16..20]), FromLe16(b[20..22]), FromLe16(b[22..24]),
      FromLe32(b[24..28]), FromLe32(b[28..32]), FromLe16(b[32..34]), FromLe16(b[34..36]),
      FromLe32(b[40..44])))
    else None
  }

  /** A reader recovers every header field from the bytes written. */
  lemma ParseSerialize(h: WavHeader)
    ensures Parse(Serialize(h)) == Some(h)
  {
    SerializeLayout(h);
    Le32RoundTrip(h.wavSize);
    Le32RoundTrip(h.fmtChunkSize);
    Le16RoundTrip(h.audioFormat);
    Le16RoundTrip(h.numChannels);
    Le32RoundTrip(h.sampleRate);
    Le32RoundTrip(h.byteRate);
    Le16RoundTrip(h.blockAlign);
    Le16RoundTrip(h.bitsPerSample);
    Le32RoundTrip(h.dataSize);
  }

  /** Any 44 bytes a reader accepts are the image of the header it reads:
      the layout has no bytes the fields do not determine. */
  lemma SerializeParse(b: seq<byte>, h: WavHeader)
    requires Parse(b) == Some(h)
    ensures Serialize(h) == b
  {
    FromLe32RoundTrip(b[4..8]);
    FromLe32RoundTrip(b[16..20]);
    FromLe16RoundTrip(b[20..22]);
    FromLe16RoundTrip(b[22..24]);
    FromLe32RoundTrip(b[24..28]);
    FromLe32RoundTrip(b[28..32]);
    FromLe16RoundTrip(b[32..34]);
    FromLe16RoundTrip(b[34..36]);
    FromLe32RoundTrip(b[40..44]);
    var r := Serialize(h);
    SerializeLayout(h);
    forall i | 0 <= i < HeaderSize
      ensures r[i] == b[i]
    {
      if i < 4 { assert r[i] == r[0..4][i]; assert b[i] == b[0..4][i]; }
      else if i < 8 { assert r[i] == r[4..8][i - 4]; assert b[i] == b[4..8][i - 4]; }
      else if i < 12 { assert r[i] == r[8..12][i - 8]; assert b[i] == b[8..12][i - 8]; }
      else if i < 16 { assert r[i] == r[12..16][i - 12]; assert b[i] == b[12..16][i - 12]; }
      else if i < 20 { assert r[i] == r[16..20][i - 16]; assert b[i] == b[16..20][i - 16]; }
      else if i < 22 { assert r[i] == r[20..22][i - 20]; assert b[i] == b[20..22][i - 20]; }
      else if i < 24 { assert r[i] == r[22..24][i - 22]; assert b[i] == b[22..24][i - 22]; }
      else if i < 28 { assert r[i] == r[24..28][i - 24]; assert b[i] == b[24..28][i - 24]; }
      else if i < 32 { assert r[i] == r[28..32][i - 28]; assert b[i] == b[28..32][i - 28]; }
      else if i < 34 { assert r[i] == r[32..34][i - 32]; assert b[i] == b[32..34][i - 32]; }
      else if i < 36 { assert r[i] == r[34..36][i - 34]; assert b[i] == b[34..36][i - 34]; }
      else if i < 40 { assert r[i] == r[36..40][i - 36]; assert b[i] == b[36..40][i - 36]; }
      else { assert r[i] == r[40..44][i - 40]; assert b[i] == b[40..44][i - 40]; }
    }
  }

  /** The header of a finished recording of `n` data bytes tells a reader
      the data size and a RIFF size of (44 + n) - 8, the file length minus 8. */
  lemma FinalHeaderReadsBack(n: u32)
    requires n as int + 36 < 0x1_0000_0000
    ensures Parse(Serialize(Finalize(ProvisionalHeader, n))) == Some(Finalize(ProvisionalHeader, n))
    ensures WellFormed(Finalize(ProvisionalHeader, n))
    ensures FromLe32(Serialize(Finalize(ProvisionalHeader, n))[40..44]) == n
    ensures FromLe32(Serialize(Finalize(ProvisionalHeader, n))[4..8]) as int == HeaderSize + n as int - 8
  {
    ParseSerialize(Finalize(ProvisionalHeader, n));
  }
}
