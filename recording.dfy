/** The recorder: the global state of the sketch and the functions that
    change it. The SPIFFS volume is the set of names that exist plus the bytes
    of the one file the recorder writes; the microphone, the open's outcome
    and the meter's 100 ms throttle are parameters. */
module Recording {
  import opened Bytes
  import opened Pcm
  import opened Wav
  import opened FileNaming

  /** The calls the recorder makes on the filesystem and the microphone. */
  datatype Effect =
    | Opened(name: string)
    | OpenFailed(name: string)
    | Wrote(offset: nat, count: nat)
    | Sought(offset: nat)
    | Closed
    | MicBegin
    | MicEnd

  /** The bytes of a file after `data` is written at position `pos`: the
      bytes there are overwritten and the file grows where `data` runs past
      its end. */
  function Overwrite(f: seq<byte>, pos: nat, data: seq<byte>): (r: seq<byte>)
    requires pos <= |f|
    ensures |r| == if pos + |data| > |f| then pos + |data| else |f|
    ensures r[..pos] == f[..pos] && r[pos..pos + |data|] == data
    ensures r[pos + |data|..] == if pos + |data| < |f| then f[pos + |data|..] else []
  {
    f[..pos] + data + (if pos + |data| < |f| then f[pos + |data|..] else [])
  }

  class Recorder {
    /** Names for which SPIFFS.exists holds. */
    var existing: set<string>
    /** The bytes of the file `wavFile` was last opened on; they stay after
        the file is closed. */
    var file: seq<byte>
    var filePos: nat
    var fileOpen: bool
    var wavFileName: string
    var fileCounter: nat
    var isRecording: bool
    var wavHeader: WavHeader
    var bytesWritten: u32
    const audioBuffer: array<i16>
    /** Between M5.Mic.begin and M5.Mic.end. */
    var micActive: bool
    var effects: seq<Effect>
    /** The samples in the data chunk of the current or last recording. */
    ghost var recorded: seq<i16>

    /** While recording, the file is the provisional header followed by
        exactly the `bytesWritten` bytes of the samples captured so far; once
        stopped, the header in the file is patched with their count. */
    ghost predicate Valid()
      reads this
    {
      audioBuffer.Length == BufferSize &&
      wavHeader.fmtChunkSize == 16 && wavHeader.audioFormat == 1 &&
      filePos <= |file| &&
      bytesWritten as int == BytesPerSample * |recorded| &&
      bytesWritten as int + 36 < 0x1_0000_0000 &&
      (isRecording ==>
         fileOpen && micActive && wavFileName in existing &&
         wavHeader == ProvisionalHeader &&
         file == Serialize(ProvisionalHeader) + Encode(recorded) &&
         filePos == |file|) &&
      (!isRecording ==>
         !fileOpen && !micActive &&
         (file == [] ||
          (wavHeader == Finalize(ProvisionalHeader, bytesWritten) &&
           file == Serialize(wavHeader) + Encode(recorded))))
    }

    /** The globals at boot, on a volume holding `files`. */
    constructor (files: set<string>)
      ensures Valid() && fresh(audioBuffer)
      ensures existing == files && file == [] && !fileOpen && fileCounter == 0
      ensures !isRecording && !micActive && bytesWritten == 0 && wavHeader == Blank
      ensures effects == []
    {
      existing := files;
      file, filePos, fileOpen := [], 0, false;
      wavFileName := "";
      fileCounter := 0;
      isRecording := false;
      wavHeader := Blank;
      bytesWritten := 0;
      audioBuffer := new i16[BufferSize];
      micActive := false;
      effects := [];
      recorded := [];
    }

    /** The do-while probe: formats the name for the counter, post-increments
        it, and stops at the first name that does not exist. Every probe
        before the last hit an existing name, so it ends within |existing|+1
        probes. */
    method GetNextFileName()
      requires fileCounter + |existing| < 0x7FFF_FFFF
      modifies this`fileCounter, this`wavFileName
      ensures wavFileName !in existing
      ensures old(fileCounter) < fileCounter <= old(fileCounter) + |existing| + 1
      ensures wavFileName == Name(fileCounter - 1)
      ensures AllTaken(old(fileCounter), fileCounter - 1, existing)
    {
      ghost var unprobed := existing;
      wavFileName := Name(fileCounter);
      fileCounter := fileCounter + 1;
      while wavFileName in existing
        invariant old(fileCounter) < fileCounter
        invariant wavFileName == Name(fileCounter - 1)
        invariant unprobed <= existing
        invariant forall c :: c >= fileCounter - 1 && Name(c) in existing ==> Name(c) in unprobed
        invariant AllTaken(old(fileCounter), fileCounter - 1, existing)
        invariant fileCounter - 1 - old(fileCounter) + |unprobed| == |existing|
        decreases |unprobed|
      {
        ghost var probed := fileCounter - 1;
        unprobed := unprobed - {wavFileName};
        forall c | c >= fileCounter && Name(c) in existing
          ensures Name(c) in unprobed
        {
          if Name(c) == Name(probed) {
            NameInjective(c, probed);
          }
        }
        wavFileName := Name(fileCounter);
        fileCounter := fileCounter + 1;
      }
    }

    /** SPIFFS.open(wavFileName, FILE_WRITE), with `ok` its outcome: on
        success the name exists and the file is empty, open at position 0. */
    method Open(ok: bool)
      requires !fileOpen
      modifies this`existing, this`file, this`filePos, this`fileOpen, this`effects
      ensures fileOpen == ok
      ensures ok ==>
        existing == old(existing) + {wavFileName} && file == [] && filePos == 0 &&
        effects == old(effects) + [Opened(wavFileName)]
      ensures !ok ==>
        existing == old(existing) && file == old(file) && filePos == old(filePos) &&
        effects == old(effects) + [OpenFailed(wavFileName)]
    {
      if ok {
        existing, file, filePos, fileOpen := existing + {wavFileName}, [], 0, true;
        effects := effects + [Opened(wavFileName)];
      } else {
        effects := effects + [OpenFailed(wavFileName)];
      }
    }

    /** M5.Mic.begin. */
    method BeginMic()
      modifies this`micActive, this`effects
      ensures micActive && effects == old(effects) + [MicBegin]
    {
      micActive, effects := true, effects + [MicBegin];
    }

    /** M5.Mic.end. */
    method EndMic()
      modifies this`micActive, this`effects
      ensures !micActive && effects == old(effects) + [MicEnd]
    {
      micActive, effects := false, effects + [MicEnd];
    }

    /** wavFile.seek to a position inside the file. */
    method Seek(pos: nat)
      requires fileOpen && pos <= |file|
      modifies this`filePos, this`effects
      ensures filePos == pos && effects == old(effects) + [Sought(pos)]
    {
      filePos, effects := pos, effects + [Sought(pos)];
    }

    /** wavFile.close; the bytes written stay on the volume. */
    method Close()
      modifies this`fileOpen, this`effects
      ensures !fileOpen && effects == old(effects) + [Closed]
    {
      fileOpen, effects := false, effects + [Closed];
    }

    /** wavFile.write at the current position. Its result is not checked by
        the sketch, so it is taken to succeed. */
    method Write(data: seq<byte>)
      requires fileOpen && filePos <= |file|
      modifies this`file, this`filePos, this`effects
      ensures file == Overwrite(old(file), old(filePos), data)
      ensures filePos == old(filePos) + |data|
      ensures effects == old(effects) + [Wrote(old(filePos), |data|)]
    {
      file := Overwrite(file, filePos, data);
      effects := effects + [Wrote(filePos, |data|)];
      filePos := filePos + |data|;
    }

    /** startRecording, with `openOk` the outcome of SPIFFS.open. The name is
        consumed either way; the header is written and the microphone started
        only once the file is open. */
    method StartRecording(openOk: bool)
      requires Valid() && !isRecording
      requires fileCounter + |existing| < 0x7FFF_FFFF
      modifies this
      ensures Valid()
      ensures old(fileCounter) < fileCounter <= old(fileCounter) + |old(existing)| + 1
      ensures wavFileName == Name(fileCounter - 1)
      ensures wavFileName !in old(existing)
      ensures AllTaken(old(fileCounter), fileCounter - 1, old(existing))
      ensures isRecording == openOk
      ensures !openOk ==>
        bytesWritten == old(bytesWritten) && file == old(file) &&
        wavHeader == old(wavHeader) && recorded == old(recorded) &&
        existing == old(existing) && !micActive && !fileOpen &&
        effects == old(effects) + [OpenFailed(wavFileName)]
      ensures openOk ==>
        existing == old(existing) + {wavFileName} &&
        file == Serialize(ProvisionalHeader) && |file| == HeaderSize &&
        bytesWritten == 0 && recorded == [] && wavHeader == ProvisionalHeader &&
        micActive && fileOpen &&
        effects == old(effects) + [Opened(wavFileName), Wrote(0, HeaderSize), MicBegin]
    {
      GetNextFileName();
      Open(openOk);
      if openOk {
        BeginSession();
      }
    }

    /** The rest of startRecording once the file is open: the provisional
        header is written to the empty file, the count reset and the
        microphone started before isRecording is set. */
    method BeginSession()
      requires audioBuffer.Length == BufferSize && !isRecording && !micActive
      requires wavHeader.fmtChunkSize == 16 && wavHeader.audioFormat == 1
      requires fileOpen && file == [] && filePos == 0 && wavFileName in existing
      modifies this
      ensures Valid() && isRecording
      ensures file == Serialize(ProvisionalHeader) && wavHeader == ProvisionalHeader
      ensures bytesWritten == 0 && recorded == []
      ensures effects == old(effects) + [Wrote(0, HeaderSize), MicBegin]
      ensures existing == old(existing) && fileCounter == old(fileCounter) &&
        wavFileName == old(wavFileName)
    {
      InitWavHeaderResets(wavHeader);
      wavHeader := InitWavHeader(wavHeader);
      Write(Serialize(wavHeader));
      bytesWritten, recorded := 0, [];
      BeginMic();
      isRecording := true;
    }

    /** M5.Mic.record(audioBuffer, BUFFER_SIZE), with `samples` what the
        microphone delivers: they land at the start of audioBuffer, the rest
        of it is left as it was, and their count is returned. */
    method Record(samples: seq<i16>) returns (len: nat)
      requires |samples| <= audioBuffer.Length
      modifies audioBuffer
      ensures len == |samples| && audioBuffer[..len] == samples
      ensures audioBuffer[len..] == old(audioBuffer[len..])
    {
      len := |samples|;
      forall i | 0 <= i < len {
        audioBuffer[i] := samples[i];
      }
    }

    /** processAudio, with `samples` what M5.Mic.record delivered into
        audioBuffer and `meterDue` whether 100 ms have passed since the last
        meter update. Returns the level shown by the meter, if one is shown. */
    method ProcessAudio(samples: seq<i16>, meterDue: bool) returns (level: Option<i16>)
      requires Valid() && |samples| <= BufferSize
      requires isRecording ==> bytesWritten as int + BytesPerSample * |samples| + 36 < 0x1_0000_0000
      modifies this, audioBuffer
      ensures Valid()
      ensures !old(isRecording) || samples == [] ==>
        unchanged(this) && audioBuffer[..] == old(audioBuffer[..]) && level == None
      ensures old(isRecording) && samples != [] ==>
        file == old(file) + Encode(samples) &&
        bytesWritten as int == old(bytesWritten) as int + BytesPerSample * |samples| &&
        recorded == old(recorded) + samples &&
        audioBuffer[..|samples|] == samples &&
        level == (if meterDue then Some(MaxLevel(samples)) else None) &&
        effects == old(effects) + [Wrote(|old(file)|, BytesPerSample * |samples|)] &&
        isRecording && micActive && existing == old(existing) &&
        wavHeader == old(wavHeader) && fileCounter == old(fileCounter) &&
        wavFileName == old(wavFileName)
      ensures isRecording ==> |file| == HeaderSize + bytesWritten as int
    {
      level := None;
      if !isRecording {
        return;
      }
      var len := Record(samples);
      if len > 0 {
        AppendChunk(len);
        if meterDue {
          var maxLevel := PeakLevel(audioBuffer, len);
          level := Some(maxLevel);
        }
      }
    }

    /** The write in processAudio: the first `len` samples of audioBuffer go
        to the end of the file and their bytes are counted. */
    method AppendChunk(len: nat)
      requires Valid() && isRecording && 0 < len <= BufferSize
      requires bytesWritten as int + BytesPerSample * len + 36 < 0x1_0000_0000
      modifies this
      ensures Valid() && isRecording && micActive
      ensures file == old(file) + Encode(audioBuffer[..len])
      ensures bytesWritten as int == old(bytesWritten) as int + BytesPerSample * len
      ensures recorded == old(recorded) + audioBuffer[..len]
      ensures effects == old(effects) + [Wrote(|old(file)|, BytesPerSample * len)]
      ensures existing == old(existing) && wavHeader == old(wavHeader) &&
        fileCounter == old(fileCounter) && wavFileName == old(wavFileName)
    {
      var chunk := audioBuffer[..len];
      EncodeAppend(recorded, chunk);
      Write(Encode(chunk));
      bytesWritten := (bytesWritten as int + len * BytesPerSample) as u32;
      recorded := recorded + chunk;
    }

    /** stopRecording: a no-op when idle; otherwise stops the microphone,
        patches the sizes into the header, rewrites bytes 0..44 and closes. */
    method StopRecording()
      requires Valid()
      modifies this
      ensures Valid()
      ensures !old(isRecording) ==> unchanged(this)
      ensures old(isRecording) ==>
        !isRecording && !micActive && !fileOpen &&
        wavHeader == Finalize(ProvisionalHeader, bytesWritten) &&
        bytesWritten == old(bytesWritten) && recorded == old(recorded) &&
        |file| == |old(file)| &&
        file[..HeaderSize] == Serialize(wavHeader) &&
        file[HeaderSize..] == old(file)[HeaderSize..] &&
        wavHeader.dataSize as int == |file| - HeaderSize &&
        wavHeader.wavSize as int == |file| - 8 &&
        effects == old(effects) + [MicEnd, Sought(0), Wrote(0, HeaderSize), Closed] &&
        existing == old(existing) && fileCounter == old(fileCounter) &&
        wavFileName == old(wavFileName)
    {
      if isRecording {
        EndMic();
        isRecording := false;
        wavHeader := Finalize(wavHeader, bytesWritten);
        Seek(0);
        Write(Serialize(wavHeader));
        Close();
      }
    }

    /** The button handler in loop: stop when recording, start otherwise.
        Each branch keeps everything the call it makes promises. */
    method Toggle(openOk: bool)
      requires Valid()
      requires !isRecording ==> fileCounter + |existing| < 0x7FFF_FFFF
      modifies this
      ensures Valid()
      ensures old(isRecording) ==>
        !isRecording && !micActive && !fileOpen &&
        wavHeader == Finalize(ProvisionalHeader, old(bytesWritten)) &&
        bytesWritten == old(bytesWritten) && recorded == old(recorded) &&
        |file| == |old(file)| &&
        file == Serialize(wavHeader) + Encode(recorded) &&
        file[HeaderSize..] == old(file)[HeaderSize..] &&
        wavHeader.dataSize as int == |file| - HeaderSize &&
        wavHeader.wavSize as int == |file| - 8 &&
        effects == old(effects) + [MicEnd, Sought(0), Wrote(0, HeaderSize), Closed] &&
        existing == old(existing) && fileCounter == old(fileCounter) &&
        wavFileName == old(wavFileName)
      ensures !old(isRecording) ==>
        old(fileCounter) < fileCounter <= old(fileCounter) + |old(existing)| + 1 &&
        wavFileName == Name(fileCounter - 1) &&
        wavFileName !in old(existing) &&
        AllTaken(old(fileCounter), fileCounter - 1, old(existing)) &&
        isRecording == openOk
      ensures !old(isRecording) && !openOk ==>
        bytesWritten == old(bytesWritten) && file == old(file) &&
        wavHeader == old(wavHeader) && recorded == old(recorded) &&
        existing == old(existing) && !micActive && !fileOpen &&
        effects == old(effects) + [OpenFailed(wavFileName)]
      ensures !old(isRecording) && openOk ==>
        existing == old(existing) + {wavFileName} &&
        file == Serialize(ProvisionalHeader) && |file| == HeaderSize &&
        bytesWritten == 0 && recorded == [] && wavHeader == ProvisionalHeader &&
        micActive && fileOpen &&
        effects == old(effects) + [Opened(wavFileName), Wrote(0, HeaderSize), MicBegin]
    {
      if isRecording {
        StopRecording();
      } else {
        StartRecording(openOk);
      }
    }
  }

  /** Start, two chunks of 512 samples, stop: the file read back holds a
      header for 2048 data bytes followed by the samples, in order. */
  method TwoChunkSession(first: seq<i16>, second: seq<i16>)
    returns (header: Option<WavHeader>, payload: seq<i16>, fileLength: nat)
    requires |first| == 512 && |second| == 512
    ensures header.Some? && header.value.dataSize == 2048 && header.value.wavSize == 2084
    ensures header.value.byteRate == 32000 && header.value.blockAlign == 2
    ensures payload == first + second && fileLength == 2092
  {
    var r := new Recorder({});
    r.Toggle(true);
    var level := r.ProcessAudio(first, false);
    assert r.recorded == first && r.bytesWritten == 1024;
    level := r.ProcessAudio(second, true);
    assert r.recorded == first + second && r.bytesWritten == 2048;
    r.Toggle(true);
    ParseSerialize(r.wavHeader);
    DecodeEncode(first + second);
    header := Parse(r.file[..HeaderSize]);
    payload := Decode(r.file[HeaderSize..]);
    fileLength := |r.file|;
  }

  /** Two probes against the same volume return two different names, neither
      of which exists. */
  method DistinctNames(files: set<string>) returns (first: string, second: string)
    requires 2 * |files| + 1 < 0x7FFF_FFFF
    ensures first != second && first !in files && second !in files
  {
    var r := new Recorder(files);
    r.GetNextFileName();
    first := r.wavFileName;
    ghost var c := r.fileCounter - 1;
    r.GetNextFileName();
    second := r.wavFileName;
    if first == second {
      NameInjective(c, r.fileCounter - 1);
    }
  }

  /** A failed open still consumes its name: on an empty volume, a start
      whose open fails followed by one whose open succeeds records into
      recording_001, and recording_000 is never created. */
  method FailedOpenSkipsName() returns (name: string, created: set<string>)
    ensures name == "/recording_001.wav" && created == {name}
    ensures "/recording_000.wav" !in created
  {
    var r := new Recorder({});
    r.StartRecording(false);
    r.StartRecording(true);
    assert Name(1) == "/recording_001.wav";
    assert Name(0) == "/recording_000.wav";
    name, created := r.wavFileName, r.existing;
  }

  /** With recording_000 and recording_001 on the volume, a fresh recorder
      names its first file recording_002. */
  method NameSkipsExisting() returns (name: string)
    ensures name == "/recording_002.wav"
  {
    var r := new Recorder({"/recording_000.wav", "/recording_001.wav"});
    assert Name(0) == "/recording_000.wav";
    assert Name(1) == "/recording_001.wav";
    assert Name(2) == "/recording_002.wav";
    r.GetNextFileName();
    name := r.wavFileName;
  }
}
