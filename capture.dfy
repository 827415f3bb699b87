/** What the two `AudioRecorder` classes share: the loopback-device search,
    channel negotiation, and the meaning of one pass of the `_record` loop.
    The recording thread is modelled as a sequence of ticks, one per loop
    iteration, each carrying the pause flag read at that moment and the
    outcomes of the stream reads; the end of the sequence is the stop event. */
module Capture {
  import opened Wrappers
  import opened Text
  import opened Pcm

  // ------------------------------------------------------ loopback search

  /** A lower-cased device name that marks a loopback device. */
  predicate IsLoopbackName(name: string)
    ensures IsLoopbackName(name) ==> 5 <= |name|
  {
    var n := Lower(name);
    ContainsLength(n, "blackhole");
    ContainsLength(n, "stereo mix");
    ContainsLength(n, "wave out");
    ContainsLength(n, "loopback");
    ContainsLength(n, "cable");
    Contains(n, "blackhole") || Contains(n, "stereo mix") || Contains(n, "wave out")
    || Contains(n, "loopback") || Contains(n, "cable")
  }

  /** `_get_loopback_device_index` over the device names from index `from` on:
      the first matching index. A device without a name is given the empty
      name, which matches nothing. */
  function LoopbackFrom(names: seq<string>, from: nat): (r: Option<nat>)
    requires from <= |names|
    ensures r.Some? ==> from <= r.value < |names| && IsLoopbackName(names[r.value])
    ensures r.Some? ==> forall j :: from <= j < r.value ==> !IsLoopbackName(names[j])
    ensures r.None? ==> forall j :: from <= j < |names| ==> !IsLoopbackName(names[j])
    decreases |names| - from
  {
    if from == |names| then None
    else if IsLoopbackName(names[from]) then Some(from)
    else LoopbackFrom(names, from + 1)
  }

  function LoopbackIndex(names: seq<string>): (r: Option<nat>)
    ensures r.Some? ==> r.value < |names| && IsLoopbackName(names[r.value])
    ensures r.Some? ==> forall j :: 0 <= j < r.value ==> !IsLoopbackName(names[j])
    ensures r.None? <==> forall j :: 0 <= j < |names| ==> !IsLoopbackName(names[j])
  {
    LoopbackFrom(names, 0)
  }

  /** The result is determined by the first-match property alone. */
  lemma LoopbackIndexUnique(names: seq<string>, i: nat)
    requires i < |names| && IsLoopbackName(names[i])
    requires forall j :: 0 <= j < i ==> !IsLoopbackName(names[j])
    ensures LoopbackIndex(names) == Some(i)
  {
  }

  /** There are no priority tiers: a "CABLE" device at index 0 is chosen over
      BlackHole at index 1. */
  lemma CableBeatsLaterBlackHole()
    ensures LoopbackIndex(["CABLE Output", "BlackHole 2ch"]) == Some(0)
  {
    var n := Lower("CABLE Output");
    assert n[..5] == "cable";
    assert Contains(n, "cable");
    LoopbackIndexUnique(["CABLE Output", "BlackHole 2ch"], 0);
  }

  lemma EmptyNameIsNotLoopback()
    ensures !IsLoopbackName([])
  {
  }

  /** `min(int(maxInputChannels), config.audio.channels)`. */
  function NegotiateChannels(deviceMax: int, configured: int): (r: int)
    ensures r <= deviceMax && r <= configured
    ensures r == deviceMax || r == configured
  {
    if deviceMax <= configured then deviceMax else configured
  }

  // ---------------------------------------------------------- record loop

  /** The microphone check and read in one iteration. */
  datatype MicRead = MicInactive | MicReadError | MicData(chunk: Chunk)

  /** The system-audio read: no stream (or one that is not active), a read
      that raised, or the data read. */
  datatype SystemRead = NoSystemStream | SystemReadError | SystemData(chunk: Chunk)

  datatype Tick = Tick(paused: bool, mic: MicRead, system: SystemRead)

  /** What one iteration does to `frames`. */
  datatype Step = Halt | Skip | Append(chunk: Chunk)

  /** `system_data` after its read: `None` unless data was read. */
  function SystemChunk(r: SystemRead): Option<Chunk> {
    if r.SystemData? then Some(r.chunk) else None
  }

  /** One pass of the `_record` loop body. */
  function StepOf(t: Tick): (s: Step)
    ensures t.paused ==> s == Skip
    ensures !t.paused && !t.mic.MicData? ==> s == Halt
    ensures !t.paused && t.mic.MicData? && (t.system.SystemData? && t.system.chunk != []) ==>
      s == Append(MixSamples(t.mic.chunk, t.system.chunk))
    ensures !t.paused && t.mic.MicData? && !(t.system.SystemData? && t.system.chunk != []) ==>
      s == Append(t.mic.chunk)
  {
    if t.paused then Skip
    else if !t.mic.MicData? then Halt
    else
      var sys := SystemChunk(t.system);
      if sys.Some? && sys.value != [] then Append(MixAudio(t.mic.chunk, sys))
      else Append(t.mic.chunk)
  }

  /** The chunks a run of the loop appends, in order, up to the first halt. */
  function Captured(ticks: seq<Tick>): (r: seq<Chunk>)
    ensures |r| <= |ticks|
    decreases |ticks|
  {
    if ticks == [] then []
    else match StepOf(ticks[0])
      case Halt => []
      case Skip => Captured(ticks[1..])
      case Append(c) => [c] + Captured(ticks[1..])
  }

  /** One iteration appends its own chunk, or nothing. */
  lemma CapturedSingle(t: Tick)
    ensures Captured([t]) == if StepOf(t).Append? then [StepOf(t).chunk] else []
  {
    assert [t][1..] == [];
  }

  predicate NoHalt(ticks: seq<Tick>) {
    forall i :: 0 <= i < |ticks| ==> StepOf(ticks[i]) != Halt
  }

  /** At most one chunk per iteration, and exactly one per iteration when every
      iteration appends. */
  lemma {:induction false} CapturedAtMostOnePerTick(ticks: seq<Tick>)
    ensures |Captured(ticks)| <= |ticks|
    ensures (forall i :: 0 <= i < |ticks| ==> StepOf(ticks[i]).Append?) ==> |Captured(ticks)| == |ticks|
    decreases |ticks|
  {
    if ticks != [] {
      CapturedAtMostOnePerTick(ticks[1..]);
      assert forall i :: 1 <= i < |ticks| ==> ticks[1..][i - 1] == ticks[i];
    }
  }

  /** Runs without a halt compose: the loop over `a + b` appends what `a` does
      and then what `b` does. */
  lemma {:induction false} CapturedConcat(a: seq<Tick>, b: seq<Tick>)
    requires NoHalt(a)
    ensures Captured(a + b) == Captured(a) + Captured(b)
    decreases |a|
  {
    if a == [] {
      assert a + b == b;
    } else {
      assert (a + b)[0] == a[0];
      assert (a + b)[1..] == a[1..] + b;
      assert NoHalt(a[1..]) by {
        forall i | 0 <= i < |a[1..]| ensures StepOf(a[1..][i]) != Halt {
          assert a[1..][i] == a[i + 1];
        }
      }
      CapturedConcat(a[1..], b);
    }
  }

  /** An inactive microphone or a failed microphone read ends the loop:
      nothing after it is captured. */
  lemma {:induction false} CapturedStopsAtHalt(a: seq<Tick>, t: Tick, b: seq<Tick>)
    requires NoHalt(a) && StepOf(t) == Halt
    ensures Captured(a + [t] + b) == Captured(a)
  {
    CapturedConcat(a, [t] + b);
    assert a + ([t] + b) == a + [t] + b;
  }

  /** Paused iterations append nothing. */
  lemma {:induction false} CapturedAllPaused(ticks: seq<Tick>)
    requires forall i :: 0 <= i < |ticks| ==> ticks[i].paused
    ensures Captured(ticks) == []
    decreases |ticks|
  {
    if ticks != [] {
      assert forall i :: 0 <= i < |ticks[1..]| ==> ticks[1..][i] == ticks[i + 1];
      CapturedAllPaused(ticks[1..]);
    }
  }

  /** `c` is what a non-paused iteration `t` with a microphone read appends:
      the microphone chunk verbatim or mixed with a non-empty system chunk. */
  predicate ReadIn(c: Chunk, t: Tick) {
    !t.paused && t.mic.MicData?
    && (c == t.mic.chunk
        || (t.system.SystemData? && t.system.chunk != [] && c == MixSamples(t.mic.chunk, t.system.chunk)))
  }

  /** Every captured chunk was read in some iteration. */
  lemma {:induction false} CapturedChunksComeFromReads(ticks: seq<Tick>)
    ensures forall c :: c in Captured(ticks) ==> exists i :: 0 <= i < |ticks| && ReadIn(c, ticks[i])
    decreases |ticks|
  {
    if ticks != [] {
      CapturedChunksComeFromReads(ticks[1..]);
      forall c | c in Captured(ticks[1..]) ensures exists i :: 0 <= i < |ticks| && ReadIn(c, ticks[i]) {
        var j :| 0 <= j < |ticks[1..]| && ReadIn(c, ticks[1..][j]);
        assert ticks[1..][j] == ticks[j + 1];
      }
    }
  }

  /** Without system audio (no stream, or every read failing or empty) the
      frames are the microphone chunks verbatim. */
  lemma {:induction false} CapturedWithoutSystemAudio(ticks: seq<Tick>)
    requires forall i :: 0 <= i < |ticks| ==> !(ticks[i].system.SystemData? && ticks[i].system.chunk != [])
    ensures forall c :: c in Captured(ticks) ==> exists i :: 0 <= i < |ticks| && ticks[i].mic == MicData(c)
  {
    CapturedChunksComeFromReads(ticks);
  }

  /** A failed system read is treated exactly like having no system audio. */
  lemma SystemReadErrorIsNoSystemAudio(paused: bool, mic: MicRead)
    ensures StepOf(Tick(paused, mic, SystemReadError)) == StepOf(Tick(paused, mic, NoSystemStream))
    ensures mic.MicData? && !paused ==> StepOf(Tick(paused, mic, SystemData([]))) == Append(mic.chunk)
  {
  }

  // --------------------------------------------------------- stream setup

  /** A PyAudio stream as the recorder sees it. `NoStream` is both a missing
      attribute and `None`. */
  datatype StreamState = NoStream | Opened | Running | Stopped | Closed

  datatype Device = Device(name: string, maxInputChannels: int)

  /** What PyAudio reports during `_setup_audio_stream` and `start`, and how
      each stream call there turns out (true: it returned; false: it raised).
      `defaultInput` is `None` when `get_default_input_device_info` raises. */
  datatype Host = Host(devices: seq<Device>, defaultInput: Option<Device>,
                       micOpenOk: bool, systemOpenOk: bool,
                       micStartOk: bool, systemStartOk: bool)

  /** The `config.audio` settings the setup reads. `channels` is `None` when
      the lenient configuration has no integer there (a file `audio` section
      without `channels` gives `None`); `captureSystemAudio` is the truth
      value of `capture_system_audio`. */
  datatype Settings = Settings(channels: Option<int>, captureSystemAudio: bool)

  /** The recorder fields that setup and start change. */
  datatype Streams = Streams(mic: StreamState, system: StreamState, micChannels: Option<int>)

  function DeviceNames(devices: seq<Device>): (r: seq<string>)
    ensures |r| == |devices| && forall i :: 0 <= i < |r| ==> r[i] == devices[i].name
  {
    seq(|devices|, i requires 0 <= i < |devices| => devices[i].name)
  }

  /** The fields after `_setup_audio_stream` and whether it returned (rather
      than raised). */
  datatype SetupResult = SetupResult(ok: bool, streams: Streams)

  function Setup(host: Host, settings: Settings, before: Streams): (r: SetupResult)
    // Setup returns exactly when the default device is known, the configured
    // channel count is an integer (`min` with `None` raises), and the
    // microphone stream opens; the system stream never makes it fail.
    ensures r.ok <==> host.defaultInput.Some? && settings.channels.Some? && host.micOpenOk
    ensures r.ok ==> r.streams.mic == Opened
    ensures !r.ok ==> r.streams.mic == before.mic
    // The system stream is reset first and reopened only for a loopback
    // device with system capture enabled.
    ensures r.streams.system != NoStream <==>
      r.ok && LoopbackIndex(DeviceNames(host.devices)).Some? && settings.captureSystemAudio && host.systemOpenOk
    ensures r.streams.system == NoStream || r.streams.system == Opened
    // The channel count is negotiated before the microphone stream opens.
    ensures host.defaultInput.Some? && settings.channels.Some? ==>
      r.streams.micChannels == Some(NegotiateChannels(host.defaultInput.value.maxInputChannels, settings.channels.value))
    ensures host.defaultInput.None? || settings.channels.None? ==> r.streams.micChannels == before.micChannels
  {
    var loopback := LoopbackIndex(DeviceNames(host.devices));
    if host.defaultInput.None? || settings.channels.None? then SetupResult(false, before.(system := NoStream))
    else
      var channels := Some(NegotiateChannels(host.defaultInput.value.maxInputChannels, settings.channels.value));
      if !host.micOpenOk then SetupResult(false, Streams(before.mic, NoStream, channels))
      else if loopback.Some? && settings.captureSystemAudio && host.systemOpenOk then
        SetupResult(true, Streams(Opened, Opened, channels))
      else SetupResult(true, Streams(Opened, NoStream, channels))
  }

  /** The fields after `start`, whether it returned, and whether it set
      `is_recording` (and cleared the stop event). */
  datatype StartResult = StartResult(ok: bool, recordingSet: bool, streams: Streams)

  function StartEffect(host: Host, settings: Settings, before: Streams): (r: StartResult)
    // `is_recording` is set as soon as setup returns, even when starting a
    // stream then raises.
    ensures r.recordingSet <==> Setup(host, settings, before).ok
    ensures r.ok <==>
      (r.recordingSet && host.micStartOk
       && (Setup(host, settings, before).streams.system != NoStream ==> host.systemStartOk))
    ensures r.ok ==>
      (r.streams.mic == Running && (r.streams.system == NoStream || r.streams.system == Running))
    ensures r.streams.micChannels == Setup(host, settings, before).streams.micChannels
  {
    var s := Setup(host, settings, before);
    if !s.ok then StartResult(false, false, s.streams)
    else if !host.micStartOk then StartResult(false, true, s.streams)
    else
      var running := s.streams.(mic := Running);
      if running.system == NoStream then StartResult(true, true, running)
      else if !host.systemStartOk then StartResult(false, true, running)
      else StartResult(true, true, running.(system := Running))
  }
}
