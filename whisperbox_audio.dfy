/** `AudioRecorder`, `get_input_devices` and the device-choice strings of
    src/whisperbox/audio/audio.py: the recorder whose `stop` sets the stop
    event first and swallows stream errors, and whose `save` converts to
    16 kHz mono through a temporary file. */
module WhisperboxAudio {
  import opened Wrappers
  import opened Text
  import opened Pcm
  import opened Capture

  /** How each stream call in `stop` turns out (true: it returned). */
  datatype StopOutcomes = StopOutcomes(micStopOk: bool, systemStopOk: bool, micCloseOk: bool, systemCloseOk: bool)

  /** How the 16 kHz mono conversion of `save` turns out: it succeeds, or it
      raises before `export` has written anything, or partway through the
      export, leaving a truncated `output_file`. */
  datatype Conversion = Converted | FailedBeforeExport | FailedDuringExport

  /** How the file steps of `save` turn out: `wave.open` creating the
      temporary file, the header and frames all being written to it, the
      conversion, the removal of the temporary file after a conversion, and
      the fallback rename of the temporary file to `output_file`. */
  datatype SaveOutcomes = SaveOutcomes(tempCreated: bool, tempComplete: bool, conversion: Conversion,
                                       tempRemoveOk: bool, renameOk: bool)

  /** A complete native-format WAV, a converted one, or a file cut short by
      a failed write. */
  datatype WavFormat = NativeWav(channels: int) | Mono16k | Truncated

  /** A file left at `path`, holding (or converted from) `source` unless it is
      truncated. */
  datatype AudioFile = AudioFile(path: string, format: WavFormat, source: seq<Sample>)

  /** One stream through `stop`: a call that raises is logged and skipped, and
      a successful close sets the attribute to `None`. */
  function StopAndClose(s: StreamState, stopOk: bool, closeOk: bool): (r: StreamState)
    ensures s == NoStream ==> r == NoStream
    ensures s != NoStream ==> (r == NoStream <==> closeOk)
    ensures s != NoStream && !closeOk ==> r == (if stopOk then Stopped else s)
  {
    if s == NoStream then NoStream
    else if closeOk then NoStream
    else if stopOk then Stopped
    else s
  }

  /** The temporary WAV is complete: it was created, the channel count was
      there to write (only a setup sets `mic_channels`; without one, reading
      it raises `AttributeError`), and every frame was written. */
  predicate TempWritten(ops: SaveOutcomes, channels: Option<int>) {
    ops.tempCreated && channels.Some? && ops.tempComplete
  }

  /** The file `save` leaves at `output_file` for non-empty frames. Any
      exception in the `try` block is followed by the rename of whatever
      temporary file exists, so a temporary file cut short is renamed as
      well, and a rename overrides a converted file whose temporary file
      could not be removed. */
  function SavedFile(output: string, ops: SaveOutcomes, channels: Option<int>, samples: seq<Sample>): (r: Option<AudioFile>)
    ensures r.Some? ==> r.value.path == output
    ensures r.Some? && r.value.format != Truncated ==> r.value.source == samples
    // A complete file is left exactly when the temporary WAV was complete and
    // either the conversion or the rename succeeded.
    ensures (r.Some? && r.value.format != Truncated) <==>
      TempWritten(ops, channels) && (ops.conversion == Converted || ops.renameOk)
    ensures r.Some? && r.value.format == Mono16k <==>
      TempWritten(ops, channels) && ops.conversion == Converted && (ops.tempRemoveOk || !ops.renameOk)
    ensures r.Some? && r.value.format.NativeWav? ==>
      TempWritten(ops, channels) && ops.renameOk && r.value.format == NativeWav(channels.value)
    // A truncated file is the temporary file cut short and then renamed, or a
    // partial export that no rename replaced.
    ensures r.Some? && r.value.format == Truncated <==>
      (ops.tempCreated && !TempWritten(ops, channels) && ops.renameOk)
      || (TempWritten(ops, channels) && ops.conversion == FailedDuringExport && !ops.renameOk)
    ensures !ops.tempCreated ==> r.None?
  {
    if !ops.tempCreated then None
    else if !TempWritten(ops, channels) then
      if ops.renameOk then Some(AudioFile(output, Truncated, samples)) else None
    else if ops.conversion == Converted && (ops.tempRemoveOk || !ops.renameOk) then
      Some(AudioFile(output, Mono16k, samples))
    else if ops.renameOk then Some(AudioFile(output, NativeWav(channels.value), samples))
    else if ops.conversion == FailedDuringExport then Some(AudioFile(output, Truncated, samples))
    else None
  }

  class AudioRecorder {
    var frames: seq<Chunk>
    var isRecording: bool
    var isPaused: bool
    var stopEvent: bool
    var micStream: StreamState
    var systemStream: StreamState
    var micChannels: Option<int>

    constructor()
      ensures frames == [] && !isRecording && !isPaused && !stopEvent
      ensures micStream == NoStream && systemStream == NoStream && micChannels == None
    {
      frames := [];
      isRecording := false;
      isPaused := false;
      stopEvent := false;
      micStream := NoStream;
      systemStream := NoStream;
      micChannels := None;
    }

    function StreamFields(): Streams
      reads this
    {
      Streams(micStream, systemStream, micChannels)
    }

    /** `_setup_audio_stream`: `ok` is false where the source raises. */
    method SetupAudioStream(host: Host, settings: Settings) returns (ok: bool)
      modifies this`micStream, this`systemStream, this`micChannels
      ensures SetupResult(ok, StreamFields()) == Setup(host, settings, old(StreamFields()))
    {
      var loopback := LoopbackIndex(DeviceNames(host.devices));
      systemStream := NoStream;
      // `get_default_input_device_info` raising, or `min` with `None`.
      if host.defaultInput.None? || settings.channels.None? {
        return false;
      }
      micChannels := Some(NegotiateChannels(host.defaultInput.value.maxInputChannels, settings.channels.value));
      if !host.micOpenOk {
        return false;
      }
      micStream := Opened;
      if loopback.Some? && settings.captureSystemAudio {
        if host.systemOpenOk {
          systemStream := Opened;
        } else {
          systemStream := NoStream;
        }
      }
      return true;
    }

    /** `start`: setup, then `is_recording` and the stop event, then the
      streams. Starting the recording thread is not modelled. */
    method Start(host: Host, settings: Settings) returns (ok: bool)
      modifies this`micStream, this`systemStream, this`micChannels, this`isRecording, this`stopEvent
      ensures var r := StartEffect(host, settings, old(StreamFields()));
        ok == r.ok && StreamFields() == r.streams
        && isRecording == (r.recordingSet || old(isRecording))
        && stopEvent == (old(stopEvent) && !r.recordingSet)
    {
      var ready := SetupAudioStream(host, settings);
      if !ready {
        return false;
      }
      isRecording := true;
      stopEvent := false;
      if !host.micStartOk {
        return false;
      }
      micStream := Running;
      if systemStream != NoStream {
        if !host.systemStartOk {
          return false;
        }
        systemStream := Running;
      }
      return true;
    }

    /** `_record`, run over the iterations the thread performs before the stop
      event is seen. */
    method Record(ticks: seq<Tick>)
      modifies this`frames
      ensures frames == old(frames) + Captured(ticks)
    {
      var i := 0;
      while i < |ticks|
        invariant 0 <= i <= |ticks|
        invariant NoHalt(ticks[..i])
        invariant frames == old(frames) + Captured(ticks[..i])
      {
        var t := ticks[i];
        assert ticks[..i + 1] == ticks[..i] + [t];
        if !t.paused {
          match t.mic {
            case MicInactive =>
              CapturedStopsAtHalt(ticks[..i], t, ticks[i + 1..]);
              assert ticks == ticks[..i] + [t] + ticks[i + 1..];
              return;
            case MicReadError =>
              CapturedStopsAtHalt(ticks[..i], t, ticks[i + 1..]);
              assert ticks == ticks[..i] + [t] + ticks[i + 1..];
              return;
            case MicData(micData) =>
              var systemData := SystemChunk(t.system);
              if systemData.Some? && systemData.value != [] {
                frames := frames + [MixAudio(micData, systemData)];
              } else {
                frames := frames + [micData];
              }
          }
        }
        CapturedConcat(ticks[..i], [t]);
        CapturedSingle(t);
        i := i + 1;
      }
      assert ticks[..i] == ticks;
    }

    /** `stop`: a no-op unless recording; otherwise the stop event is set
      before the streams are touched, every stream error is swallowed, and
      recording always ends. `frames` is not touched. */
    method Stop(ops: StopOutcomes)
      modifies this`stopEvent, this`micStream, this`systemStream, this`isRecording
      ensures !old(isRecording) ==>
        stopEvent == old(stopEvent) && micStream == old(micStream) && systemStream == old(systemStream)
      ensures old(isRecording) ==>
        (stopEvent
         && micStream == StopAndClose(old(micStream), ops.micStopOk, ops.micCloseOk)
         && systemStream == StopAndClose(old(systemStream), ops.systemStopOk, ops.systemCloseOk))
      ensures !isRecording
    {
      if !isRecording {
        return;
      }
      stopEvent := true;
      if micStream != NoStream && ops.micStopOk {
        micStream := Stopped;
      }
      if systemStream != NoStream && ops.systemStopOk {
        systemStream := Stopped;
      }
      if micStream != NoStream && ops.micCloseOk {
        micStream := NoStream;
      }
      if systemStream != NoStream && ops.systemCloseOk {
        systemStream := NoStream;
      }
      isRecording := false;
    }

    /** `save`: nothing happens without frames; otherwise the frames, joined
      in order, end up converted, kept in native format, cut short or lost,
      and the buffer is emptied whatever the outcome. */
    method Save(output: string, ops: SaveOutcomes) returns (written: Option<AudioFile>)
      modifies this`frames
      ensures old(frames) == [] ==> written == None
      ensures old(frames) != [] ==> written == SavedFile(output, ops, micChannels, Flatten(old(frames)))
      ensures frames == []
    {
      if frames == [] {
        return None;
      }
      var joined := Flatten(frames);
      written := None;
      // The `try` block: the temporary file, then the conversion.
      var tempExists := ops.tempCreated;
      var raised := !TempWritten(ops, micChannels);
      if !raised {
        if ops.conversion == Converted {
          written := Some(AudioFile(output, Mono16k, joined));
          tempExists := !ops.tempRemoveOk;
          raised := !ops.tempRemoveOk;
        } else {
          if ops.conversion == FailedDuringExport {
            written := Some(AudioFile(output, Truncated, joined));
          }
          raised := true;
        }
      }
      // The `except` block: keep whatever temporary file exists.
      if raised && tempExists && ops.renameOk {
        var format := if TempWritten(ops, micChannels) then NativeWav(micChannels.value) else Truncated;
        written := Some(AudioFile(output, format, joined));
      }
      // The `finally` block.
      frames := [];
    }
  }

  /** One entry of `sd.query_devices()`; a field that is missing or fails its
      conversion is `None`. */
  datatype RawDevice = RawDevice(name: Option<string>, maxInputChannels: Option<int>,
                                 defaultSampleRate: Option<real>, defaultLowInputLatency: Option<real>)

  datatype InputDevice = InputDevice(name: string, index: nat, channels: int, sampleRate: real,
                                     inputLatencyMs: real, isDefault: bool)

  /** An entry `get_input_devices` keeps: an input device whose fields all
      convert. */
  predicate Usable(d: RawDevice) {
    d.maxInputChannels.Some? && d.maxInputChannels.value > 0
    && d.name.Some? && d.defaultSampleRate.Some? && d.defaultLowInputLatency.Some?
  }

  function Entry(d: RawDevice, i: nat, defaultIndex: int): InputDevice
    requires Usable(d)
  {
    InputDevice(d.name.value, i, d.maxInputChannels.value, d.defaultSampleRate.value,
                d.defaultLowInputLatency.value * 1000.0, i == defaultIndex)
  }

  /** `get_input_devices`: `query` is `None` when `sd.query_devices` raises.
      The result lists the usable entries, each under its own enumeration
      index, in enumeration order, flagged as default exactly when that index
      is the default input. */
  method GetInputDevices(query: Option<seq<RawDevice>>, defaultIndex: int) returns (devices: seq<InputDevice>)
    ensures query.None? ==> devices == []
    ensures query.Some? ==> forall k :: 0 <= k < |devices| ==>
      devices[k].index < |query.value| && Usable(query.value[devices[k].index])
      && devices[k] == Entry(query.value[devices[k].index], devices[k].index, defaultIndex)
    ensures forall k, l :: 0 <= k < l < |devices| ==> devices[k].index < devices[l].index
    ensures query.Some? ==> forall i :: 0 <= i < |query.value| && Usable(query.value[i]) ==>
      exists k :: 0 <= k < |devices| && devices[k].index == i
  {
    if query.None? {
      return [];
    }
    var raws := query.value;
    devices := [];
    var i := 0;
    while i < |raws|
      invariant 0 <= i <= |raws|
      invariant forall k :: 0 <= k < |devices| ==>
        devices[k].index < i && Usable(raws[devices[k].index])
        && devices[k] == Entry(raws[devices[k].index], devices[k].index, defaultIndex)
      invariant forall k, l :: 0 <= k < l < |devices| ==> devices[k].index < devices[l].index
      invariant forall j :: 0 <= j < i && Usable(raws[j]) ==> exists k :: 0 <= k < |devices| && devices[k].index == j
    {
      var d := raws[i];
      if d.maxInputChannels.Some? && d.maxInputChannels.value > 0 {
        if d.name.Some? && d.defaultSampleRate.Some? && d.defaultLowInputLatency.Some? {
          ghost var before := devices;
          devices := devices + [Entry(d, i, defaultIndex)];
          assert forall k :: 0 <= k < |before| ==> devices[k] == before[k];
          assert devices[|devices| - 1].index == i;
        }
      }
      i := i + 1;
    }
  }

  // ------------------------------------------------------ device choices

  const DefaultMarker: string := " (Default)"

  /** The choice string `select_audio_device` shows for a device; `details`
      stands for the channel, rate and latency line. */
  function FormatChoice(name: string, isDefault: bool, details: string): (r: string)
    ensures |name| + |details| < |r| && r[..|name|] == name && r[|r| - |details|..] == details
    ensures r[|r| - |details| - 1] == '\n'
    ensures isDefault ==> |name| + |DefaultMarker| <= |r| && r[|name|..|name| + |DefaultMarker|] == DefaultMarker
  {
    name + (if isDefault then DefaultMarker else "") + "\n" + details
  }

  /** `selection.split("\n")[0].replace(" (Default)", "")`. */
  function ParseChoice(selection: string): (r: string)
    ensures |r| <= |selection| && '\n' !in r
  {
    ContainsChar(BeforeFirst(selection, "\n"), '\n');
    Replace(BeforeFirst(selection, "\n"), DefaultMarker, "")
  }

  /** The name comes back from its choice string when it has no newline and
      does not contain " (Default)". */
  lemma ChoiceRoundTrip(name: string, isDefault: bool, details: string)
    requires '\n' !in name && !Contains(name, DefaultMarker)
    ensures ParseChoice(FormatChoice(name, isDefault, details)) == name
  {
    var marker: string := if isDefault then DefaultMarker else "";
    var head := name + marker;
    MarkerHasNoNewline();
    assert '\n' !in head;
    assert FormatChoice(name, isDefault, details) == head + "\n" + details;
    FirstLine(head, details);
    DropMarker(name, isDefault);
  }

  /** Removing " (Default)" from the first line leaves the name. */
  lemma DropMarker(name: string, isDefault: bool)
    requires !Contains(name, DefaultMarker)
    ensures Replace(name + (if isDefault then DefaultMarker else ""), DefaultMarker, "") == name
  {
    if isDefault {
      UnborderedByFirstChar(DefaultMarker);
      ReplaceTrailing(name, DefaultMarker);
    } else {
      assert name + "" == name;
      ReplaceAbsent(name, DefaultMarker, "");
    }
  }

  lemma MarkerHasNoNewline()
    ensures '\n' !in DefaultMarker
  {
    assert forall k :: 0 <= k < |DefaultMarker| ==> DefaultMarker[k] != '\n';
  }

  /** The text before the first newline of `head + "\n" + rest` is `head`
      when `head` has no newline. */
  lemma FirstLine(head: string, rest: string)
    requires '\n' !in head
    ensures BeforeFirst(head + "\n" + rest, "\n") == head
  {
    ContainsChar(head, '\n');
    UnborderedByFirstChar("\n");
    BeforeFirstOfJoin(head, "\n", rest);
  }

  /** `next(d for d in devices if d["name"] == selected_name)`: the first
      device with that name, or `None` where `next` raises. */
  function FirstNamed(devices: seq<InputDevice>, name: string, from: nat): (r: Option<nat>)
    requires from <= |devices|
    ensures r.Some? ==> from <= r.value < |devices| && devices[r.value].name == name
    ensures r.Some? ==> forall j :: from <= j < r.value ==> devices[j].name != name
    ensures r.None? ==> forall j :: from <= j < |devices| ==> devices[j].name != name
    decreases |devices| - from
  {
    if from == |devices| then None
    else if devices[from].name == name then Some(from)
    else FirstNamed(devices, name, from + 1)
  }

  function SelectDevice(devices: seq<InputDevice>, selection: string): (r: Option<nat>)
    ensures r.Some? ==> r.value < |devices| && devices[r.value].name == ParseChoice(selection)
    ensures r.Some? ==> forall j :: 0 <= j < r.value ==> devices[j].name != ParseChoice(selection)
    ensures r.None? <==> forall j :: 0 <= j < |devices| ==> devices[j].name != ParseChoice(selection)
  {
    FirstNamed(devices, ParseChoice(selection), 0)
  }

  /** Choosing the entry of device `k` selects that device, or an earlier
      device listed under the same name. */
  lemma SelectChosenDevice(devices: seq<InputDevice>, k: nat, details: string)
    requires k < |devices|
    requires '\n' !in devices[k].name && !Contains(devices[k].name, DefaultMarker)
    ensures var r := SelectDevice(devices, FormatChoice(devices[k].name, devices[k].isDefault, details));
      r.Some? && r.value <= k && devices[r.value].name == devices[k].name
  {
    ChoiceRoundTrip(devices[k].name, devices[k].isDefault, details);
  }
}
