# M5Dial PDM recorder: a verified model of the capture core

The M5Dial PDM recorder is an Arduino sketch for an ESP32 board. It records
16 kHz mono 16-bit audio from a PDM microphone into numbered WAV files on the
board's SPIFFS flash volume. A button press starts a recording: the sketch
picks the first free name `/recording_NNN.wav` at or after its counter
(a start whose open failed has already used up its number), opens it, and writes a
provisional 44-byte PCM WAV header whose sizes say "no data". Each trip
through `loop` appends the samples the microphone delivered and adds their
byte count to `bytesWritten`. About every 100 ms it also computes the peak of
the chunk for a level meter. A second press stops the microphone, seeks back
to offset 0 and rewrites the header with the final sizes.

The model is a Dafny class, `Recording.Recorder`, holding the sketch's
globals. The SPIFFS volume is modelled as two parts:

- the set of names that exist (`existing`);
- the bytes of the file the recorder last opened (`file`), with its write
  position and whether it is open.

The microphone, the outcome of `SPIFFS.open` and the meter's 100 ms
throttle are parameters of the methods. The class invariant `Valid` states
what the source promises about the file:

- while recording, the file is the provisional header followed by exactly
  the samples captured so far;
- after a stop, the file is the patched header followed by the same samples.

A trace of calls (`effects`) records, in order, the calls that change the
file or the microphone: `SPIFFS.open` (successful or failed),
`wavFile.write`, `wavFile.seek`, `wavFile.close`, `M5.Mic.begin` and
`M5.Mic.end`. The existence probes (`SPIFFS.exists`) and the microphone
reads (`M5.Mic.record`) change neither and are not traced; their effect
shows in the name chosen and in the samples written.

Modules follow the source's parts:

- `Bytes`: the target's fixed-width integers, their little-endian byte
  images, and the two's-complement bit pattern of `int16_t`.
- `Pcm`: the byte image of a sample buffer and the peak-meter loop.
- `Wav`: the `WAVHeader` struct, `initWAVHeader`, the patch applied at stop,
  the 44-byte image and a reader that parses it back.
- `FileNaming`: the names `sprintf("/recording_%03d.wav", n)` produces and
  how they read back.
- `Recording`: the recorder class, plus four scenarios: a two-chunk
  session, two probes against the same volume, a failed open followed by
  a successful one, and a volume that already holds two recordings.

## Model

| member | source | states |
|---|---|---|
| Bytes.Le16RoundTrip | src/main.cpp:11-30 | a `uint16_t` member stored least significant byte first reads back unchanged |
| Bytes.Le32RoundTrip | src/main.cpp:11-30 | a `uint32_t` member stored least significant byte first reads back unchanged |
| Bytes.FromLe32RoundTrip | src/main.cpp:11-30 | every 4-byte string is the image of the value it decodes to, so the encoding is a bijection |
| Bytes.FromLe16RoundTrip | src/main.cpp:11-30 | every 2-byte string is the image of the `uint16_t` it decodes to |
| Bytes.BitsRoundTrip | src/main.cpp:40 | an `int16_t` sample is recovered from its two's-complement bit pattern |
| Pcm.Encode | src/main.cpp:123-124 | a buffer of `len` samples occupies `len * sizeof(int16_t)` bytes |
| Pcm.DecodeEncode | src/main.cpp:124 | the bytes written for a buffer decode back to the same samples in the same order |
| Pcm.EncodeAppend | src/main.cpp:124-125 | writing two chunks one after the other gives the same bytes as writing them as one, so the file does not depend on chunk boundaries |
| Pcm.AbsLevel | src/main.cpp:140 | `int16_t absValue = abs(s)`: the magnitude of `s` reduced modulo 2^16 into the `int16_t` range, so it is not negative except for -32768, which stays -32768 |
| Pcm.MaxLevel | src/main.cpp:138-142 | the value `maxLevel` ends with after the loop scans the samples in order from 0; it is never negative |
| Pcm.MaxLevelIsPeak | src/main.cpp:138-142 | the meter reading is not negative and is at least every `absValue` of the loop; it is at least the magnitude of every sample other than -32768; it is 0 or one of the `absValue`s |
| Pcm.FullScaleNegativeReadsZero | src/main.cpp:140 | because `abs(-32768)` narrowed to `int16_t` wraps to -32768, a lone full-scale negative sample leaves the meter at 0 |
| Pcm.PeakLevel | src/main.cpp:138-142 | the `for` loop over `audioBuffer[0..len)` ends with the running maximum of the `absValue`s, specified by `MaxLevel` |
| Wav.BlankDefaults | src/main.cpp:19-20 | the global `wavHeader` (line 38) before initWAVHeader, `Wav.Blank`, has the member initialisers fmtChunkSize 16 and audioFormat 1 and zero sizes, so it is not yet well formed |
| Wav.InitWavHeader | src/main.cpp:43-51 | after initWAVHeader: mono, 16000 Hz, 16 bits, byteRate 32000, blockAlign 2, dataSize 0, wavSize 36; the format chunk size and tag are kept, and the header is well formed when they are 16 and 1 |
| Wav.InitWavHeaderResets | src/main.cpp:43-51 | initWAVHeader overwrites every member a recording changes, so each recording starts from the same provisional header |
| Wav.Finalize | src/main.cpp:98-99 | the patch at stop sets dataSize to bytesWritten and wavSize to 36 + bytesWritten, changes no other member and keeps the header well formed |
| Wav.Serialize | src/main.cpp:11-30 | `sizeof(WAVHeader)` is 44: the byte image of the struct is exactly 44 bytes |
| Wav.SerializeLayout | src/main.cpp:11-30 | `RIFF` at offset 0, `WAVE` at 8, `fmt ` at 12, `data` at 36; every numeric member is little-endian at its struct offset (wavSize at 4, fmtChunkSize at 16, audioFormat at 20, dataSize at 40, and the rest) |
| Wav.ParseSerialize | src/main.cpp:11-30 | a WAV reader recovers every header member from the 44 bytes written |
| Wav.SerializeParse | src/main.cpp:11-30 | any 44 bytes a reader accepts are the image of the header it reads, so the layout holds no bytes the members leave undetermined |
| Wav.FinalHeaderReadsBack | src/main.cpp:14 | the header of a finished recording of n data bytes is well formed, decodes at offset 40 to n, and decodes at offset 4 to the file length 44 + n minus 8 |
| FileNaming.Decimal | src/main.cpp:56 | `%d` of a counter value is a non-empty string of decimal digits |
| FileNaming.ZeroPadPads | src/main.cpp:56 | the `0` flag with width 3: the digits padded on the left with zeros to at least three characters, the digits themselves kept |
| FileNaming.Name | src/main.cpp:56 | the string `sprintf("/recording_%03d.wav", n)` produces; its form is stated by `FileNaming.NameForm` and `FileNaming.NameParses` |
| FileNaming.NameForm | src/main.cpp:56 | every probed name is `/recording_`, then at least three decimal digits, then `.wav` |
| FileNaming.NameParses | src/main.cpp:56 | every probed name is `/recording_` + at least three digits + `.wav`, and its digits read back as the counter value |
| FileNaming.NameInjective | src/main.cpp:56 | distinct counter values give distinct names |
| Recording.Overwrite | src/main.cpp:101-102 | a write at a position replaces the bytes there, keeps the bytes before it, and keeps the bytes after it or grows the file |
| Recording.Recorder.constructor | src/main.cpp:33-40 | the globals at boot: idle, counter 0, bytesWritten 0, no file open, on a volume holding the given names |
| Recording.Recorder.GetNextFileName | src/main.cpp:54-58 | the name found does not exist and is the name of the post-incremented counter; the counter ends strictly greater than it started and at most \|existing\| + 1 further on; every name probed before it exists |
| Recording.Recorder.Open | src/main.cpp:65-66 | a successful `SPIFFS.open(_, FILE_WRITE)` creates the name and an empty file at position 0; a failed one changes neither the volume nor the file |
| Recording.Recorder.Write | src/main.cpp:73 | `wavFile.write` overwrites at the current position, advances it by the length written, and records the call |
| Recording.Recorder.BeginMic | src/main.cpp:77 | `M5.Mic.begin` starts the microphone and records the call |
| Recording.Recorder.EndMic | src/main.cpp:94 | `M5.Mic.end` stops the microphone and records the call |
| Recording.Recorder.Seek | src/main.cpp:101 | `wavFile.seek` moves the position and records the call |
| Recording.Recorder.Close | src/main.cpp:103 | `wavFile.close` closes the file, keeps its bytes and records the call |
| Recording.Recorder.StartRecording | src/main.cpp:61-81 | the counter has advanced, by at most \|existing\| + 1, and the name is new whether or not the open succeeds; on a failed open the recorder stays idle, bytesWritten, the file and the header are unchanged, and neither a header write nor a microphone start happens; on success the file is exactly the 44-byte provisional header, bytesWritten is 0, isRecording is true, and the calls are open, header write, microphone start, in that order |
| Recording.Recorder.BeginSession | src/main.cpp:72-79 | once the file is open, the provisional header is written at offset 0, bytesWritten is reset and the microphone is started after the header write; the invariant then holds in the recording state |
| Recording.Recorder.Record | src/main.cpp:119 | the samples the microphone delivers land at the start of audioBuffer, the rest of the buffer is untouched, and their count is returned |
| Recording.Recorder.ProcessAudio | src/main.cpp:115-147 | when idle, or when the microphone delivered nothing, nothing changes and no level is shown; otherwise exactly `len * 2` bytes, the bytes of the samples, are appended and bytesWritten grows by `len * 2`; the meter shows the peak only when it is due and never changes the file; while recording, the file length is 44 + bytesWritten |
| Recording.Recorder.AppendChunk | src/main.cpp:123-125 | the write of the first `len` buffered samples appends their bytes at the end of the file and adds `len * 2` to bytesWritten, keeping the invariant |
| Recording.Recorder.StopRecording | src/main.cpp:91-103 | when idle nothing changes, so a second stop is a no-op; otherwise the microphone is stopped, dataSize becomes bytesWritten and wavSize 36 + bytesWritten, which is the file length minus 8; only bytes 0..44 are rewritten, the payload is unchanged, the file is closed and isRecording ends false |
| Recording.Recorder.Toggle | src/main.cpp:188-192 | a button press while recording does everything StopRecording promises: the patched header followed by the unchanged recorded samples, sizes tied to the file length, the calls mic end, seek, header write, close; when idle it does everything StartRecording promises: a fresh name and an advanced counter, on a failed open no change to the file, header, count or volume and no header write or mic start, and on success the 44-byte provisional header with the calls open, header write, mic start |
| Recording.TwoChunkSession | src/main.cpp:61-125 | start, two chunks of 512 samples, stop: the header reads back with dataSize 2048, wavSize 2084, byteRate 32000 and blockAlign 2, the payload decodes to the 1024 samples in order, and the file is 2092 bytes long |
| Recording.DistinctNames | src/main.cpp:54-58 | two probes against the same volume return two distinct names, neither of which exists |
| Recording.FailedOpenSkipsName | src/main.cpp:54-68 | on an empty volume a start whose open fails, then one whose open succeeds, records into `/recording_001.wav`; `/recording_000.wav` is never created |
| Recording.NameSkipsExisting | src/main.cpp:54-58 | with recording_000 and recording_001 on the volume, the first name probed as free is `/recording_002.wav` |

## Left out

- The display is left out: every `M5.Display` call, and the `map()` that
  turns the peak into a bar width. They only render; the level the meter
  would show is returned by `ProcessAudio` instead.
- `setup` is left out: board, microphone-pin and SPIFFS initialisation, and
  the halt loop when SPIFFS fails to mount. This is hardware bring-up.
- In `loop`, the button and touch detection and the 100 ms debounce
  `delay` are left out. `Toggle` models what one press does.
- Recording.Recorder.ProcessAudio: the `millis()` throttle is the
  parameter `meterDue`. It gates only the meter. `recordStartTime` and the
  elapsed times are display-only, so they are not modelled.
- Recording.Recorder.Record: the microphone's result is taken to be the
  count of samples delivered, as `processAudio` uses it. The M5Unified
  library is not part of this model.
- Recording.Recorder.Write: `write`, `seek` and `close` are taken to
  succeed, because the sketch ignores their results. The error paths the
  code does not implement are not modelled. These are a short write, a
  failed header rewrite, and a name space that runs out.
- Recording.Recorder.StartRecording requires the recorder to be idle. Its
  only caller, the toggle in `loop`, calls it only then.
- Recording.Recorder.ProcessAudio: overflow is excluded by preconditions,
  not modelled. A chunk may be appended only while `bytesWritten + 36`
  stays below 2^32. This is the same bound as
  Recording.Recorder.AppendChunk's.
- Recording.Recorder.GetNextFileName requires `fileCounter + |existing|`
  to stay below 2^31 - 1. This keeps the `int` counter from wrapping.
- Pcm.MaxLevelIsPeak: `abs(-32768)` narrowed to `int16_t` is modelled as
  the wrap the target performs, giving -32768. So the magnitude bound is
  stated only for the other samples.
- When the open fails, `file` keeps the bytes of the file it was last
  opened on. Those bytes are no longer reachable through `wavFile`.
- `fileCounter` is a plain counter in the recorder, as in the sketch. It
  is not kept across restarts.
- The volume holds names and one file's bytes. Files other than the one
  being recorded, and their contents, are not modelled.
