/** `AudioRecorder`, `get_input_devices` and the device-choice strings of
    src/audio/audio.py: the older recorder whose `stop` stops the streams
    before setting the stop event and lets stream errors escape, and whose
    `save` writes the native WAV directly with no empty-buffer guard. */
module LegacyAudio {
  import opened Wrappers
  import opened Text
  import opened Pcm
  import opened Capture

  /** How each stream call in `stop` turns out (true: it returned). */
  datatype StopOutcomes = StopOutcomes(micStopOk: bool, systemStopOk: bool, micCloseOk: bool, systemCloseOk: bool)

  /** A WAV file in the recording's native format. */
  datatype WavFile = WavFile(path: string, channels: int, samples: seq<Sample>)

  /** Whether `stop` returns rather than raises: it does when not recording,
      and otherwise when every call on an open stream succeeds. */
  predicate StopSucceeds(recording: bool, mic: StreamState, system: StreamState, ops: StopOutcomes) {
    !recording
    || ((mic != NoStream ==> ops.micStopOk && ops.micCloseOk)
        && (system != NoStream ==> ops.systemStopOk && ops.systemCloseOk))
  }

  class AudioRecorder {
    var frames: seq<Chunk>
    var isRecording: bool
    var isPaused: bool
    var stopEvent: bool
    var micStream: StreamState
    var systemStream: StreamState
    var micChannels: Option<int>

    constructor()
      ensures frames == [] && !isRecording && !isPaused && !stopEvent
      ensures micStream == NoStream && systemStream == NoStream && micChannels == None
    {
      frames := [];
      isRecording := false;
      isPaused := false;
      stopEvent := false;
      micStream := NoStream;
      systemStream := NoStream;
      micChannels := None;
    }

    function StreamFields(): Streams
      reads this
    {
      Streams(micStream, systemStream, micChannels)
    }

    /** `_setup_audio_stream`: `ok` is false where the source raises. */
    method SetupAudioStream(host: Host, settings: Settings) returns (ok: bool)
      modifies this`micStream, this`systemStream, this`micChannels
      ensures SetupResult(ok, StreamFields()) == Setup(host, settings, old(StreamFields()))
    {
      var loopback := LoopbackIndex(DeviceNames(host.devices));
      systemStream := NoStream;
      // `get_default_input_device_info` raising, or `min` with `None`.
      if host.defaultInput.None? || settings.channels.None? {
        return false;
      }
      micChannels := Some(NegotiateChannels(host.defaultInput.value.maxInputChannels, settings.channels.value));
      if !host.micOpenOk {
        return false;
      }
      micStream := Opened;
      if loopback.Some? && settings.captureSystemAudio {
        if host.systemOpenOk {
          systemStream := Opened;
        } else {
          systemStream := NoStream;
        }
      }
      return true;
    }

    /** `start`: setup, then `is_recording` and the stop event, then the
      streams. Starting the recording thread is not modelled. */
    method Start(host: Host, settings: Settings) returns (ok: bool)
      modifies this`micStream, this`systemStream, this`micChannels, this`isRecording, this`stopEvent
      ensures var r := StartEffect(host, settings, old(StreamFields()));
        ok == r.ok && StreamFields() == r.streams
        && isRecording == (r.recordingSet || old(isRecording))
        && stopEvent == (old(stopEvent) && !r.recordingSet)
    {
      var ready := SetupAudioStream(host, settings);
      if !ready {
        return false;
      }
      isRecording := true;
      stopEvent := false;
      if !host.micStartOk {
        return false;
      }
      micStream := Running;
      if systemStream != NoStream {
        if !host.systemStartOk {
          return false;
        }
        systemStream := Running;
      }
      return true;
    }

    /** `_record`, run over the iterations the thread performs before the stop
      event is seen. */
    method Record(ticks: seq<Tick>)
      modifies this`frames
      ensures frames == old(frames) + Captured(ticks)
    {
      var i := 0;
      while i < |ticks|
        invariant 0 <= i <= |ticks|
        invariant NoHalt(ticks[..i])
        invariant frames == old(frames) + Captured(ticks[..i])
      {
        var t := ticks[i];
        assert ticks[..i + 1] == ticks[..i] + [t];
        if !t.paused {
          match t.mic {
            case MicInactive =>
              CapturedStopsAtHalt(ticks[..i], t, ticks[i + 1..]);
              assert ticks == ticks[..i] + [t] + ticks[i + 1..];
              return;
            case MicReadError =>
              CapturedStopsAtHalt(ticks[..i], t, ticks[i + 1..]);
              assert ticks == ticks[..i] + [t] + ticks[i + 1..];
              return;
            case MicData(micData) =>
              var systemData := SystemChunk(t.system);
              if systemData.Some? && systemData.value != [] {
                frames := frames + [MixAudio(micData, systemData)];
              } else {
                frames := frames + [micData];
              }
          }
        }
        CapturedConcat(ticks[..i], [t]);
        CapturedSingle(t);
        i := i + 1;
      }
      assert ticks[..i] == ticks;
    }

    /** `stop`: a no-op unless recording. Otherwise the streams are stopped,
      then the stop event is set, then the streams are closed (which leaves
      the attributes set), and only then does recording end. The first call
      that raises ends the method (`ok` false) with `is_recording` still set.
      `frames` is not touched. */
    method Stop(ops: StopOutcomes) returns (ok: bool)
      modifies this`stopEvent, this`micStream, this`systemStream, this`isRecording
      ensures ok == StopSucceeds(old(isRecording), old(micStream), old(systemStream), ops)
      ensures !old(isRecording) ==>
        (ok && !isRecording && stopEvent == old(stopEvent)
         && micStream == old(micStream) && systemStream == old(systemStream))
      ensures old(isRecording) ==>
        (ok <==> (old(micStream) != NoStream ==> ops.micStopOk && ops.micCloseOk)
                 && (old(systemStream) != NoStream ==> ops.systemStopOk && ops.systemCloseOk))
      ensures isRecording <==> old(isRecording) && !ok
      // The stop event is set only once every open stream has stopped.
      ensures old(isRecording) && stopEvent && !old(stopEvent) ==>
        (old(micStream) != NoStream ==> micStream in {Stopped, Closed})
        && (old(systemStream) != NoStream ==> systemStream in {Stopped, Closed})
      ensures old(isRecording) ==>
        (stopEvent <==> old(stopEvent) || ((old(micStream) != NoStream ==> ops.micStopOk)
                                           && (old(systemStream) != NoStream ==> ops.systemStopOk)))
      ensures old(isRecording) ==>
        (micStream == NoStream <==> old(micStream) == NoStream)
        && (systemStream == NoStream <==> old(systemStream) == NoStream)
    {
      if !isRecording {
        return true;
      }
      if micStream != NoStream {
        if !ops.micStopOk {
          return false;
        }
        micStream := Stopped;
      }
      if systemStream != NoStream {
        if !ops.systemStopOk {
          return false;
        }
        systemStream := Stopped;
      }
      stopEvent := true;
      if micStream != NoStream {
        if !ops.micCloseOk {
          return false;
        }
        micStream := Closed;
      }
      if systemStream != NoStream {
        if !ops.systemCloseOk {
          return false;
        }
        systemStream := Closed;
      }
      isRecording := false;
      return true;
    }

    /** `save`: writes the joined frames, however many (none gives an empty
      WAV), and clears the buffer only when the write completes. The write
      needs `mic_channels`, which only a setup sets; `writeOk` is whether the
      file write itself returns. */
    method Save(output: string, writeOk: bool) returns (written: Option<WavFile>)
      modifies this`frames
      ensures written.Some? <==> writeOk && micChannels.Some?
      ensures written.Some? ==>
        written.value == WavFile(output, micChannels.value, Flatten(old(frames))) && frames == []
      ensures written.None? ==> frames == old(frames)
    {
      if micChannels.None? || !writeOk {
        return None;
      }
      written := Some(WavFile(output, micChannels.value, Flatten(frames)));
      frames := [];
    }
  }

  /** `get_device_info_by_index(i)`: the fields `get_input_devices` reads. */
  datatype DeviceInfo = DeviceInfo(name: string, maxInputChannels: int, defaultSampleRate: real)

  datatype InputDevice = InputDevice(index: nat, name: string, channels: int, sampleRate: real)

  predicate IsInput(d: DeviceInfo) {
    d.maxInputChannels > 0
  }

  function Entry(d: DeviceInfo, i: nat): InputDevice {
    InputDevice(i, d.name, d.maxInputChannels, d.defaultSampleRate)
  }

  /** `get_input_devices`: exactly the devices with more than 0 input
      channels, each under its own index, in enumeration order. */
  method GetInputDevices(infos: seq<DeviceInfo>) returns (devices: seq<InputDevice>)
    ensures forall k :: 0 <= k < |devices| ==>
      devices[k].index < |infos| && IsInput(infos[devices[k].index])
      && devices[k] == Entry(infos[devices[k].index], devices[k].index)
    ensures forall k, l :: 0 <= k < l < |devices| ==> devices[k].index < devices[l].index
    ensures forall i :: 0 <= i < |infos| && IsInput(infos[i]) ==>
      exists k :: 0 <= k < |devices| && devices[k].index == i
  {
    devices := [];
    var i := 0;
    while i < |infos|
      invariant 0 <= i <= |infos|
      invariant forall k :: 0 <= k < |devices| ==>
        devices[k].index < i && IsInput(infos[devices[k].index])
        && devices[k] == Entry(infos[devices[k].index], devices[k].index)
      invariant forall k, l :: 0 <= k < l < |devices| ==> devices[k].index < devices[l].index
      invariant forall j :: 0 <= j < i && IsInput(infos[j]) ==>
        exists k :: 0 <= k < |devices| && devices[k].index == j
    {
      if IsInput(infos[i]) {
        ghost var before := devices;
        devices := devices + [Entry(infos[i], i)];
        assert forall k :: 0 <= k < |before| ==> devices[k] == before[k];
        assert devices[|devices| - 1].index == i;
      }
      i := i + 1;
    }
  }

  // ------------------------------------------------------ device choices

  const Separator: string := " ("

  /** The choice string `select_audio_device` shows for a device; `details`
      stands for the channel and rate text inside the parentheses. */
  function FormatChoice(name: string, details: string): (r: string)
    ensures |name| + |Separator| + |details| < |r| && r[..|name|] == name
    ensures r[|name|..|name| + |Separator|] == Separator && r[|r| - 1] == ')'
    ensures r[|name| + |Separator|..|r| - 1] == details
  {
    name + Separator + details + ")"
  }

  /** `selection.split(" (")[0]`. */
  function ParseChoice(selection: string): (r: string)
    ensures r <= selection && !Contains(r, Separator)
  {
    BeforeFirst(selection, Separator)
  }

  /** The name comes back from its choice string when it does not contain
      " (". */
  lemma ChoiceRoundTrip(name: string, details: string)
    requires !Contains(name, Separator)
    ensures ParseChoice(FormatChoice(name, details)) == name
  {
    UnborderedByFirstChar(Separator);
    assert FormatChoice(name, details) == name + Separator + (details + ")");
    BeforeFirstOfJoin(name, Separator, details + ")");
  }

  /** A name that itself contains " (" is cut short: "USB Mic (Rear)" comes
      back as "USB Mic". */
  lemma ChoiceCutsParenthesisedName()
    ensures ParseChoice(FormatChoice("USB Mic (Rear)", "")) == "USB Mic"
  {
    var head: string, tail: string := "USB Mic", "Rear)";
    assert !Contains(head, Separator) by {
      ContainsElements(head, Separator);
      assert '(' in Separator && '(' !in head;
    }
    UnborderedByFirstChar(Separator);
    assert "USB Mic (Rear)" == head + Separator + tail;
    FormatChoiceOfSplitName(head, tail, "");
    BeforeFirstOfJoin(head, Separator, tail + Separator + "" + ")");
  }

  /** The choice string of a name `head (tail` is `head`, the separator and
      the rest. */
  lemma FormatChoiceOfSplitName(head: string, tail: string, details: string)
    ensures FormatChoice(head + Separator + tail, details) == head + Separator + (tail + Separator + details + ")")
  {
  }

  /** `next(d for d in devices if d["name"] == selected_name)`: the first
      device with that name, or `None` where `next` raises. */
  function FirstNamed(devices: seq<InputDevice>, name: string, from: nat): (r: Option<nat>)
    requires from <= |devices|
    ensures r.Some? ==> from <= r.value < |devices| && devices[r.value].name == name
    ensures r.Some? ==> forall j :: from <= j < r.value ==> devices[j].name != name
    ensures r.None? ==> forall j :: from <= j < |devices| ==> devices[j].name != name
    decreases |devices| - from
  {
    if from == |devices| then None
    else if devices[from].name == name then Some(from)
    else FirstNamed(devices, name, from + 1)
  }

  function SelectDevice(devices: seq<InputDevice>, selection: string): (r: Option<nat>)
    ensures r.Some? ==> r.value < |devices| && devices[r.value].name == ParseChoice(selection)
    ensures r.Some? ==> forall j :: 0 <= j < r.value ==> devices[j].name != ParseChoice(selection)
    ensures r.None? <==> forall j :: 0 <= j < |devices| ==> devices[j].name != ParseChoice(selection)
  {
    FirstNamed(devices, ParseChoice(selection), 0)
  }

  /** Choosing the entry of device `k` selects that device, or an earlier
      device listed under the same name. */
  lemma SelectChosenDevice(devices: seq<InputDevice>, k: nat, details: string)
    requires k < |devices| && !Contains(devices[k].name, Separator)
    ensures var r := SelectDevice(devices, FormatChoice(devices[k].name, details));
      r.Some? && r.value <= k && devices[r.value].name == devices[k].name
  {
    ChoiceRoundTrip(devices[k].name, details);
  }

  /** When no device is named "USB Mic", choosing "USB Mic (Rear)" finds no
      device: this is where the source's `next` raises `StopIteration`. */
  lemma SelectParenthesisedNameFails(devices: seq<InputDevice>)
    requires forall j :: 0 <= j < |devices| ==> devices[j].name != "USB Mic"
    ensures SelectDevice(devices, FormatChoice("USB Mic (Rear)", "")) == None
  {
    ChoiceCutsParenthesisedName();
  }
}
