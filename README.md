# whisperbox, modelled in Dafny

whisperbox records a meeting or a monologue from the microphone, optionally
mixed with the system audio that a loopback device (BlackHole, "Stereo Mix",
a virtual cable) makes available. It writes the recording to a WAV file,
transcribes it with a local Whisper "llamafile", and can ask a language model
for a summary, the sentiment, the intent and the topics. Recording is driven
by a `RecordingManager` and global hotkeys. Settings come from a YAML
configuration with built-in defaults, and profiles are YAML files that list
prompt actions.

The repository carries two generations of most of this code:

- **The packaged application under `src/whisperbox/`, `src/core/`, `src/ai/` and `src/audio/`.**
  - The recorder in src/whisperbox/audio/audio.py. Its `stop` sets the stop event first and swallows stream errors. Its `save` converts through a temporary file.
  - The older recorder in src/audio/audio.py. It stops the streams before signalling and lets errors escape. Its `save` writes directly.
  - The session manager in src/audio/recording_manager.py, which works with one session directory.
  - The lenient configuration of src/core/config.py, with defaults.
  - The transcriber of src/ai/transcribe.py, which returns the analysis.
- **The earlier top-level modules.**
  - src/recording_manager.py.
  - The strict configuration of src/config.py, read from the environment and a file.
  - The transcriber of src/transcribe.py.
- Both generations share the hotkey manager of src/hotkeys.py and the profile validator of src/utils/profile_parser.py.

What the model covers, module by module:

- `Pcm`: 16-bit samples and the microphone/system mixer. The gain `int(s * 1.2)` is written exactly in integers, truncating toward zero, and the result is saturated.
- `Capture`: what both recorders share.
  - The loopback search, a first match in index order.
  - Channel negotiation.
  - The meaning of one pass of the `_record` loop. The recording thread becomes a sequence of ticks, each carrying the pause flag and the outcomes of the stream reads.
  - The effect of `_setup_audio_stream` and `start` on the stream fields, given the outcome of every PyAudio call.
- `WhisperboxAudio` and `LegacyAudio`: the two `AudioRecorder` classes, with their fields updated in place, plus `get_input_devices` and the device-choice strings of `select_audio_device`.
- `SessionManager` and `LegacySessionManager`: the two `RecordingManager` state machines. Each holds a `LegacyAudio.AudioRecorder`. This assumes that both `from .audio import AudioRecorder` imports reach src/audio/audio.py, which needs src/audio/ to be a regular package; its `__init__.py` is not part of this model. src/audio.py sits beside that directory and defines no `AudioRecorder`, so if the directory were only a namespace package, the import in src/recording_manager.py would find src/audio.py and fail.
- `Hotkeys`: parsing hotkey strings into key sets, the handler table, and the held-key set updated by presses and releases.
- `ProfileParser`: the validation and defaulting of `load_profile_yaml` once the YAML is loaded, over the JSON-like `Values.Value`.
- `CoreConfig` and `LegacyConfig`: the two configurations.
  - The lenient and the strict `ConfigSection`.
  - The default/file merge and `save` without `api`.
  - The environment lookups of API keys, and the nested insertion of keys from the environment.
- `Transcription` and `LegacyTranscription`: the pure helpers of the two transcribers and the shape of their results. The helpers of src/transcribe.py perform the same computations as those of src/ai/transcribe.py, with different logging (`console.print` instead of `log.*`, and no progress bar), so one definition serves both.
- `Text`, `Paths` and `Wrappers`: Python's `str.lower`, `strip`, `split`, `join`, `partition` and `replace`, `posixpath.join` and `splitext`, and Option/Result for `None` results and raised exceptions.

Hardware, files, subprocesses and the network appear only as outcomes passed in:

- a `Host` of PyAudio answers;
- `StopOutcomes` and `SaveOutcomes` for the stream and file calls;
- a `TranscriptionOutcome` for the transcription step;
- the parsed YAML document;
- the environment as a map.

Some facts about the code that the model keeps:

- The loopback search takes the first device whose name matches any of the five markers. No marker is preferred over another.
- Mixing microphone -32760 with system 50 gives -32700, because the gain is applied to the system sample before the clamp.
- When there are no frames, the packaged recorder's `save` returns without writing. The older one writes a WAV file with no samples. Neither raises an error for an empty capture.
- Only the packaged recorder sets the stop event before touching the streams.

## Model

| member | source | states |
|---|---|---|
| Pcm.Gain | src/whisperbox/audio/audio.py:144-151 | the system gain `int(s * 1.2)` truncates toward zero: for `s >= 0`, `5g <= 6s < 5g + 5`; for `s < 0`, the mirror image. The same code is at src/audio/audio.py:142-149 |
| Pcm.GainOdd | src/whisperbox/audio/audio.py:151 | the gain treats both signs alike: `Gain(-s) == -Gain(s)` |
| Pcm.Clamp | src/whisperbox/audio/audio.py:150-153 | `max(min(x, 32767), -32768)`: an in-range sum is kept; anything above is 32767 and anything below is -32768 |
| Pcm.MixSamples | src/whisperbox/audio/audio.py:147-156 | the mix has the length of the shorter chunk, as `zip` pairs them. Every sample is a 16-bit value by its type, so nothing wraps around |
| Pcm.MixAudio | src/whisperbox/audio/audio.py:134-158 | absent or empty system data returns the microphone chunk unchanged; otherwise the chunks are mixed |
| Pcm.MixedAt | src/whisperbox/audio/audio.py:150-154 | each mixed sample is the clamped sum of the microphone sample and the amplified system sample, and exactly that sum when it is in range |
| Pcm.MixDropsTail | src/whisperbox/audio/audio.py:154 | the tail of the longer chunk plays no part: extending either chunk beyond the other's length changes no sample already paired |
| Pcm.MixWithSilence | src/whisperbox/audio/audio.py:147-156 | a silent system chunk at least as long as the microphone chunk leaves the microphone samples as they are |
| Pcm.MixExample | src/whisperbox/audio/audio.py:150-153 | mic [100,-100,32760,-32760] with system [50,50,50,50] mixes to [160,-40,32767,-32700], and a system sample of -3 contributes -3 |
| Pcm.FlattenConcat | src/whisperbox/audio/audio.py:298 | `b"".join(frames)` distributes over concatenation of the frame lists |
| Pcm.Flatten | src/whisperbox/audio/audio.py:298 | joining no frames gives no samples, and joining one frame gives that frame |
| Pcm.FlattenLength | src/audio/audio.py:266 | the joined recording is as long as all its chunks together |
| Capture.LoopbackFrom | src/whisperbox/audio/audio.py:29-42 | the search from an index finds the first device from there whose lower-cased name contains one of the five markers, or `None` exactly when none does |
| Capture.IsLoopbackName | src/whisperbox/audio/audio.py:33-41 | a name that marks a loopback device is at least five characters long, the length of the shortest marker `cable` |
| Capture.LoopbackIndex | src/whisperbox/audio/audio.py:29-42 | `_get_loopback_device_index`: the smallest matching index, and `None` if and only if no name matches. The same code is at src/audio/audio.py:27-40 |
| Capture.LoopbackIndexUnique | src/audio/audio.py:27-40 | any index that matches with no match before it is the result |
| Capture.CableBeatsLaterBlackHole | src/whisperbox/audio/audio.py:34-41 | there are no priority tiers: "CABLE Output" at index 0 is chosen over "BlackHole 2ch" at index 1 |
| Capture.EmptyNameIsNotLoopback | src/whisperbox/audio/audio.py:33 | a device without a name (read as "") is never a loopback device |
| Capture.NegotiateChannels | src/audio/audio.py:59-61 | the microphone channel count is the minimum of the device's maximum and the configured count |
| Paths.ExpandUser | src/ai/transcribe.py:78 | `posixpath.expanduser`: a path that is not `~` or `~/...` is unchanged; otherwise `~` becomes the home directory without trailing slashes (or `/` when nothing is left), and the rest of the path follows unchanged |
| Paths.ExpandedHasNoTilde | src/ai/transcribe.py:78 | for a home directory that does not start with `~`, the expanded path no longer starts with `~` or `~/` |
| Paths.ExpandUserIdempotent | src/ai/transcribe.py:78 | expanding twice is expanding once |
| Capture.StepOf | src/whisperbox/audio/audio.py:163-207 | one iteration: paused appends nothing; an inactive microphone or a failed microphone read ends the loop; otherwise exactly one chunk is appended, mixed if and only if the system data is non-empty |
| Capture.Captured | src/whisperbox/audio/audio.py:160-207 | a run of the loop appends at most one chunk per iteration |
| Capture.CapturedAtMostOnePerTick | src/audio/audio.py:158-205 | a run appends at most one chunk per iteration, and exactly one per iteration when each iteration appends |
| Capture.CapturedConcat | src/whisperbox/audio/audio.py:163-207 | runs without a halt compose: the frames of `a + b` are those of `a` followed by those of `b` |
| Capture.CapturedStopsAtHalt | src/whisperbox/audio/audio.py:167-178 | after an inactive microphone or a failed microphone read, nothing more is captured |
| Capture.CapturedAllPaused | src/whisperbox/audio/audio.py:164 | iterations that are all paused capture nothing |
| Capture.CapturedChunksComeFromReads | src/whisperbox/audio/audio.py:172-196 | every captured chunk is the microphone read of some iteration, either verbatim or mixed with that iteration's non-empty system read |
| Capture.CapturedWithoutSystemAudio | src/whisperbox/audio/audio.py:180-196 | with no usable system data, the frames are microphone chunks verbatim |
| Capture.SystemReadErrorIsNoSystemAudio | src/whisperbox/audio/audio.py:182-189 | a failed system read gives the same step as having no system stream, and an empty system read appends the microphone chunk unchanged |
| Capture.Setup | src/whisperbox/audio/audio.py:44-117 | `_setup_audio_stream` returns if and only if the default device is known, the configured channel count is an integer (`min` with `None` raises) and the microphone opens. The system stream is reset, then reopened only for a loopback device with capture enabled, and it never makes setup fail. The channel count is negotiated before the microphone opens |
| Capture.StartEffect | src/whisperbox/audio/audio.py:119-128 | `is_recording` is set as soon as setup returns, even if starting a stream then raises. `start` returns if and only if setup and every stream start succeed, with the microphone running |
| WhisperboxAudio.StopAndClose | src/whisperbox/audio/audio.py:229-275 | in the packaged `stop` a stream whose close succeeds becomes `None`. One whose calls fail is left stopped, or as it was, and the error is swallowed |
| WhisperboxAudio.SavedFile | src/whisperbox/audio/audio.py:290-324 | nothing is left at `output_file` when the temporary file was never created. The joined frames are left there exactly when the temporary WAV was completely written and then either the conversion or the rename in the `except` branch succeeds. They are 16 kHz mono exactly when the conversion succeeded and the temporary file was removed or could not be renamed, and otherwise in the native format with the recorder's channel count. A truncated file is left exactly when a created but incomplete temporary file is renamed, or when the export fails part-way and the rename fails |
| WhisperboxAudio.AudioRecorder.constructor | src/whisperbox/audio/audio.py:21-27 | no frames, not recording, not paused, no streams |
| WhisperboxAudio.AudioRecorder.SetupAudioStream | src/whisperbox/audio/audio.py:44-117 | the stream fields and the outcome are those of `Setup` |
| WhisperboxAudio.AudioRecorder.Start | src/whisperbox/audio/audio.py:119-132 | stream fields, `is_recording` and the stop event are as `StartEffect` says |
| WhisperboxAudio.AudioRecorder.Record | src/whisperbox/audio/audio.py:160-207 | the `_record` loop extends `frames` by exactly `Captured(ticks)` and never removes anything |
| WhisperboxAudio.AudioRecorder.Stop | src/whisperbox/audio/audio.py:212-279 | it is a no-op unless recording. Otherwise the stop event is set and each stream goes through `StopAndClose`. It always ends with `is_recording` false, and `frames` is outside what it may change |
| WhisperboxAudio.AudioRecorder.Save | src/whisperbox/audio/audio.py:281-332 | with no frames, nothing is written. Otherwise the file is `SavedFile` of the frames joined in order. Afterwards `frames` is empty whatever the outcome |
| WhisperboxAudio.GetInputDevices | src/whisperbox/audio/audio.py:350-378 | exactly the usable entries with more than 0 input channels, in enumeration order, each under its own index and flagged default exactly when that index is the default input. Malformed entries are skipped, and a failed query gives [] |
| WhisperboxAudio.ChoiceRoundTrip | src/whisperbox/audio/audio.py:390-405 | `split("\n")[0].replace(" (Default)", "")` gives back the name of a choice string, for names without a newline and without " (Default)" |
| WhisperboxAudio.FormatChoice | src/whisperbox/audio/audio.py:391-398 | a choice string starts with the device name, has ` (Default)` right after it for the default device, and ends with a newline and the details line |
| WhisperboxAudio.ParseChoice | src/whisperbox/audio/audio.py:405 | the parsed name comes from the first line of the selection: it has no newline and is no longer than the selection |
| WhisperboxAudio.FirstNamed | src/whisperbox/audio/audio.py:406 | `next(...)` finds the first device with the name, or `None` exactly where `next` raises |
| WhisperboxAudio.SelectChosenDevice | src/whisperbox/audio/audio.py:389-406 | choosing device k's entry selects a device with k's name, at k or before it |
| WhisperboxAudio.SelectDevice | src/whisperbox/audio/audio.py:405-406 | the selected device is the first one whose name equals the parsed name, and there is none exactly when no device has that name |
| LegacyAudio.AudioRecorder.constructor | src/audio/audio.py:19-25 | no frames, not recording, not paused, no streams |
| LegacyAudio.AudioRecorder.SetupAudioStream | src/audio/audio.py:42-115 | the stream fields and the outcome are those of `Setup` |
| LegacyAudio.AudioRecorder.Start | src/audio/audio.py:117-130 | stream fields, `is_recording` and the stop event are as `StartEffect` says |
| LegacyAudio.AudioRecorder.Record | src/audio/audio.py:158-208 | the loop extends `frames` by exactly `Captured(ticks)` |
| LegacyAudio.AudioRecorder.Stop | src/audio/audio.py:210-257 | it is a no-op unless recording. It returns exactly when every call on an open stream succeeds (`StopSucceeds`); the first failing call ends it with `is_recording` still set. The stop event is set only after every open stream has stopped. Closing leaves the attributes set, and `frames` is untouched |
| LegacyAudio.AudioRecorder.Save | src/audio/audio.py:259-268 | there is no empty guard: the joined frames, however many, are written in the native format. `frames` is cleared exactly when the write completes |
| LegacyAudio.GetInputDevices | src/audio/audio.py:281-299 | exactly the devices with more than 0 input channels, in enumeration order, each under its own index |
| LegacyAudio.ChoiceRoundTrip | src/audio/audio.py:311-324 | `split(" (")[0]` gives back a name that does not contain " (" |
| LegacyAudio.FormatChoice | src/audio/audio.py:311-314 | a choice string is the device name, then ` (`, the details and a closing `)` |
| LegacyAudio.ParseChoice | src/audio/audio.py:324 | the parsed name is a prefix of the selection that does not contain ` (` |
| LegacyAudio.ChoiceCutsParenthesisedName | src/audio/audio.py:324 | a name containing " (" is cut short: "USB Mic (Rear)" comes back as "USB Mic" |
| LegacyAudio.FirstNamed | src/audio/audio.py:325 | the first device with the name, or `None` exactly where `next` raises |
| LegacyAudio.SelectChosenDevice | src/audio/audio.py:311-325 | choosing device k's entry selects a device with k's name, at k or before it |
| LegacyAudio.SelectDevice | src/audio/audio.py:324-325 | the selected device is the first one whose name equals the parsed name, and there is none exactly when no device has that name |
| LegacyAudio.SelectParenthesisedNameFails | src/audio/audio.py:324-325 | with no device named "USB Mic", choosing "USB Mic (Rear)" finds nothing: `next` raises `StopIteration` |
| SessionManager.SessionDirFor | src/audio/recording_manager.py:37-38 | a set, non-empty session directory is kept; otherwise a new one is created |
| SessionManager.OutputPath | src/audio/recording_manager.py:41-42 | the recording path starts with the session directory, ends in `recording.wav`, and is transcribed without conversion |
| SessionManager.LaterRecordingsReuseFile | src/audio/recording_manager.py:36-42 | once set, the directory is never replaced, so later recordings go to the same file |
| SessionManager.RecordingManager.constructor | src/audio/recording_manager.py:16-22 | not recording, not paused, no recording path, no session directory, a fresh recorder |
| SessionManager.RecordingManager.GetOutputFilename | src/audio/recording_manager.py:24-51 | the session directory is created only when none is set; the path is `<dir>/recording.wav` |
| SessionManager.RecordingManager.StartRecording | src/audio/recording_manager.py:53-66 | it changes nothing while recording. Otherwise the path is set first, and `is_recording` is set if and only if the recorder's `start` returns. The recorder's fields follow `StartEffect` |
| SessionManager.RecordingManager.StopRecording | src/audio/recording_manager.py:68-119 | it is a no-op returning `None` when not recording. The flags are cleared exactly when the recorder's `stop` and `save` both return, and `recorder.is_paused` is left alone. The path is returned exactly when a transcript was exported |
| SessionManager.RecordingManager.TogglePause | src/audio/recording_manager.py:142-150 | it changes nothing unless recording; otherwise the flag flips and the recorder's copy follows it |
| SessionManager.ToggleTwice | src/audio/recording_manager.py:142-150 | toggling twice restores the pause flag, and leaves both copies in agreement while recording |
| SessionManager.PausedStopBreaksMirror | src/audio/recording_manager.py:86-87 | a successful stop taken while paused clears the manager's flag but not the recorder's, so the two copies disagree |
| LegacySessionManager.OutputPath | src/recording_manager.py:18-24 | `join(audio_directory, "recording_<timestamp>.<format>")`: the directory first, the file name last |
| LegacySessionManager.WavFormatNeedsNoConversion | src/recording_manager.py:21-24 | with the "wav" format and a timestamp free of `.` and `/`, the recording is transcribed without conversion |
| LegacySessionManager.NeverDisplayed | src/recording_manager.py:63-79 | the result of src/transcribe.py never has every key the display reads, so the display always raises `KeyError` |
| LegacySessionManager.DisplayedWithAnalysis | src/recording_manager.py:73-79 | with the transcriber of src/ai/transcribe.py, every non-empty transcript has all the keys the display reads |
| LegacySessionManager.Colour | src/recording_manager.py:57 | `config.display.colors.<name>` raises for every configuration |
| LegacySessionManager.RecordingManager.constructor | src/recording_manager.py:11-16 | not recording, not paused, no recording path, a fresh recorder |
| LegacySessionManager.RecordingManager.StartRecording | src/recording_manager.py:26-42 | it changes nothing while recording. Otherwise the path is set, and a failed `makedirs` propagates before the recorder is touched. `is_recording` is set if and only if `start` returns. It raises if and only if `makedirs` fails or the display section has no `colors` |
| LegacySessionManager.RecordingManager.StopRecording | src/recording_manager.py:44-87 | it is a no-op when not recording; otherwise it always raises. The flags are cleared exactly when `stop` and `save` both return |
| LegacySessionManager.RecordingManager.TogglePause | src/recording_manager.py:89-98 | it is guarded by `is_recording`. It flips the flag, mirrors it into the recorder, then raises on the status colour |
| Hotkeys.ParseHotkey | src/hotkeys.py:22-24 | a hotkey is a non-empty set of parts, none containing `+` |
| Hotkeys.ParseCaseInsensitive | src/hotkeys.py:24 | capitals do not matter |
| Hotkeys.ParseJoin | src/hotkeys.py:22-24 | parts joined by `+` parse to the set of the lower-cased parts |
| Hotkeys.OrderAndRepetitionIrrelevant | src/hotkeys.py:22-24 | part lists with the same elements, in any order and with any repetition, give the same combination |
| Hotkeys.KeyString | src/hotkeys.py:45-46 | `key.char` or `key.name`, lower-cased; a key code without a character has no string (`AttributeError`) |
| Hotkeys.HotkeyManager.constructor | src/hotkeys.py:7-14 | no handlers, no keys held, no listener, stop event clear |
| Hotkeys.HotkeyManager.QuitCombo | src/hotkeys.py:65 | the quit combination exists exactly when a `quit` hotkey is configured, and is its parse |
| Hotkeys.HotkeyManager.RegisterHandler | src/hotkeys.py:26-39 | without hotkey configuration, or without a non-empty hotkey for the action, nothing changes. Otherwise the combination is mapped to the handler, replacing an earlier one |
| Hotkeys.HotkeyManager.OnPress | src/hotkeys.py:41-55 | the key joins the held set. A handler fires exactly when the held set equals a registered combination (equality, not superset), and anything it raises is swallowed |
| Hotkeys.HotkeyManager.Stop | src/hotkeys.py:80-85 | only an existing listener is stopped and signalled |
| Hotkeys.HotkeyManager.OnRelease | src/hotkeys.py:57-69 | the key leaves the held set first. `stop` runs exactly when the quit combination is within the rest; a missing quit hotkey raises after the removal and is swallowed |
| Hotkeys.HotkeyManager.Start | src/hotkeys.py:71-78 | a listener exists afterwards |
| Hotkeys.PressCombination | src/hotkeys.py:41-51 | pressing a registered two-key combination fires its handler on the second key and not on the first |
| ProfileParser.ProfilePath | src/utils/profile_parser.py:13 | `profiles/<name>.yaml`; an absolute name escapes the directory |
| ProfileParser.CheckAction | src/utils/profile_parser.py:36-42 | an action fails if and only if it is not a dictionary or has no `script`. Otherwise it gains an empty `config` only if it has none, and loses nothing |
| ProfileParser.CheckActions | src/utils/profile_parser.py:36-42 | checked actions are as many as the actions |
| ProfileParser.CheckActionsEach | src/utils/profile_parser.py:36-42 | the list passes if and only if each action passes, and each checked action is that action's check |
| ProfileParser.WithDefaults | src/utils/profile_parser.py:30-31 | `name` and `actions` are filled in only when absent; every existing key keeps its value |
| ProfileParser.LoadProfileYaml | src/utils/profile_parser.py:7-44 | the loop over the actions returns or raises exactly what `LoadSpec` says |
| ProfileParser.LoadSpec | src/utils/profile_parser.py:7-44 | a missing file raises `FileNotFoundError` for the profile path, and a document that is not a dictionary raises. A loaded profile comes from a dictionary with a `prompt`; it has the file's keys plus `name` and `actions`, every key but `actions` keeps the file's value, and `actions` is a list of dictionaries |
| ProfileParser.CheckActionsFailureSticks | src/utils/profile_parser.py:36-40 | the first bad action decides the error |
| ProfileParser.LoadedActionsComplete | src/utils/profile_parser.py:36-44 | in a loaded profile every action has `script` and `config` |
| ProfileParser.LoadKeepsFields | src/utils/profile_parser.py:30-44 | a loaded profile has the file's keys plus `name` and `actions`, every other value as in the file, and an existing `name` kept |
| ProfileParser.LoadKeepsActionFields | src/utils/profile_parser.py:42 | each loaded action keeps all its keys and values, an existing `config` included |
| ProfileParser.LoadSucceedsIff | src/utils/profile_parser.py:14-40 | the profile loads exactly when the file exists, is a dictionary with a `prompt`, any `actions` is a list, and every action is a dictionary with a `script` |
| CoreConfig.ConfigSection.GetAttr | src/core/config.py:161-167 | a missing key is `None` and never raises; a dictionary comes back wrapped as a section; other values come back as they are |
| CoreConfig.ConfigSection.GetItem | src/core/config.py:169-171 | `[]` is a strict lookup that raises `KeyError` for a missing key |
| CoreConfig.ConfigSection.Get | src/core/config.py:177-179 | `get` gives the default for a missing key |
| CoreConfig.AccessorsAgree | src/core/config.py:161-179 | `in` decides whether `[]` succeeds; `get` is `[]` with a fallback; attribute access is `get(key, None)` with dictionaries wrapped |
| CoreConfig.DefaultConfig | src/core/config.py:15-61 | the defaults are the seven sections, each a dictionary, with the audio and output sections given |
| CoreConfig.SectionOf | src/core/config.py:109-152 | a section property for an absent key is an empty section |
| CoreConfig.DefaultChannels | src/core/config.py:27-29 | the default audio section records two channels |
| CoreConfig.MergeIsShallow | src/core/config.py:68-75 | a file section replaces the default section whole, losing the default channel count; a section the file leaves out keeps its defaults |
| CoreConfig.DisplayDefaultsEmpty | src/core/config.py:134-137 | without a file `display` section, every display attribute is `None` |
| CoreConfig.SafeCopy | src/core/config.py:85-87 | the saved copy is the configuration without `api`, with every other key and value |
| CoreConfig.Config.constructor | src/core/config.py:63-80 | the configuration is the defaults with the file over them. `initError` is what the directory creation in `load_config` raises on that configuration; when it is an error, Python never hands out the object |
| CoreConfig.Config.LoadConfig | src/core/config.py:70-80 | each top-level key of the file replaces the current one, and the rest stay. The error returned is what the three `os.makedirs` calls raise for the merged configuration, as `CreateDirectories` says |
| CoreConfig.MakedirsArgument | src/core/config.py:78-80 | one `os.makedirs(self.<section>.<key>)` gets a usable argument exactly when the section is a dictionary holding a non-empty string under the key. A section that is not a dictionary raises `TypeError` inside `ConfigSection.__getattr__` or in `os.makedirs`. A missing or non-string value (`None`) also raises `TypeError`, and "" raises `FileNotFoundError` |
| CoreConfig.CreateDirectories | src/core/config.py:78-80 | the three calls succeed exactly when the meetings, monologues and temporary directories are all usable paths, and otherwise the first unusable one, in that order, decides the error |
| CoreConfig.DefaultsCreateDirectories | src/core/config.py:78-80 | with non-empty default directories and a file without `output` or `system`, no call raises |
| CoreConfig.MissingDirectoryRaises | src/core/config.py:73-78 | a file `output` section without `meetings_directory` replaces the default one whole, so the first `makedirs` gets `None` and raises `TypeError` |
| CoreConfig.Config.Save | src/core/config.py:82-88 | what is written is `SafeCopy`, and the in-memory configuration is unchanged |
| CoreConfig.Config.Section | src/core/config.py:109-152 | a section property reads the current configuration |
| CoreConfig.SavedFileHasNoKeys | src/core/config.py:82-88 | saving after loading drops every API key and writes every other section |
| CoreConfig.ApiKeyVariable | src/core/config.py:99-103 | only `openai`, `anthropic` and `groq` have a variable |
| CoreConfig.GetApiKey | src/core/config.py:90-107 | another service gives `None`; for these three, the variable's value when it is set |
| CoreConfig.ApiKeyVariablesDistinct | src/core/config.py:99-103 | different services read different variables |
| LegacyConfig.ConfigSection.GetAttr | src/config.py:109-112 | a missing key raises `AttributeError`; a present value comes back unwrapped, a dictionary included |
| LegacyConfig.ConfigSection.Get | src/config.py:114-116 | `get` gives the default for a missing key |
| LegacyConfig.StrictAgreesWithLenient | src/config.py:109-112 | where the strict section answers, the lenient one gives the same value; where it raises, the lenient one gives `None` |
| LegacyConfig.SectionOf | src/config.py:64-102 | a section property for an absent key is an empty section |
| LegacyConfig.Lookup | src/config.py:109-112 | `config.<section>.<key>` succeeds exactly when the section holds the key |
| LegacyConfig.RawAttr | src/config.py:112 | an attribute of an unwrapped value is not a configuration key |
| LegacyConfig.AttrChain | src/recording_manager.py:57 | `config.<section>.<key>.<attr>` raises for every configuration |
| LegacyConfig.NestedLookupFinds | src/recording_manager.py:57 | the intended nested lookup finds the value at `section.key.attr` whenever it is there |
| LegacyConfig.SetPath | src/config.py:42-48 | the nested insertion adds or replaces only the first key of the path at the top level, and every other top-level key keeps its value |
| LegacyConfig.GetPath | src/config.py:59-62 | a value is found only below a present first key, and only through a dictionary when the path goes deeper; a one-part path finds the value under its key |
| LegacyConfig.SetThenGet | src/config.py:42-48 | the stored value is found again at its path |
| LegacyConfig.SetKeepsOtherPaths | src/config.py:44-47 | dictionaries are created only when missing, so every path that leaves the written one keeps its value, siblings under `api` and `api.<svc>` included |
| LegacyConfig.SetFailsIff | src/config.py:44-48 | the insertion raises exactly when a proper prefix of the path holds a non-dictionary |
| LegacyConfig.ApplyMapping | src/config.py:41-48 | an unset or empty variable changes nothing; a set one is stored at its path |
| LegacyConfig.ApplyMappings | src/config.py:40-48 | the loop keeps every existing top-level key, adds only keys that start one of the paths, and leaves the value of every key no path starts with |
| LegacyConfig.LoadApiKeys | src/config.py:32-48 | loading the keys from the environment touches only `api`: every other top-level key and value stays, and at most `api` is added |
| LegacyConfig.UnsetVariablesChangeNothing | src/config.py:41 | with no variable set, the configuration is left as it is |
| LegacyConfig.GetApiKeyIsPathLookup | src/config.py:59-62 | `get_api_key` is the nested lookup of `api.<service>.api_key`. It gives `None` when the entry is absent, lacks `api_key`, or is not a dictionary |
| LegacyConfig.GetApiKey | src/config.py:50-62 | the key is the `api_key` entry of the service's dictionary under `api` whenever that entry exists, and any value other than `None` is that entry |
| LegacyConfig.LoadedKeyIsFound | src/config.py:40-48 | after the loop, each service whose variable is set has that value as its key |
| LegacyConfig.AppliedKeyStays | src/config.py:40-48 | a stored key survives the later steps |
| LegacyConfig.RequiredDirs | src/config.py:25-27 | the three directory lookups succeed only when all three keys are present |
| LegacyConfig.Config.constructor | src/config.py:12-14 | the configuration starts empty; the load that follows is `LoadConfig` |
| LegacyConfig.Config.LoadApiKeysFromEnv | src/config.py:32-48 | the loop over `env_mapping` leaves `LoadApiKeys` of the old configuration |
| LegacyConfig.Config.LoadConfig | src/config.py:16-30 | a missing file raises `FileNotFoundError` and changes nothing. Otherwise the file becomes the configuration, a missing directory key raises, and then the API keys are loaded |
| LegacyConfig.StopsAtFailure | src/config.py:40-48 | once an assignment raises, the later mappings are skipped |
| Transcription.NormaliseSentiment | src/ai/transcribe.py:160-164 | the sentiment is the stripped, lower-cased reply if that is positive, neutral or negative, and neutral otherwise. The same code is at src/transcribe.py:146-150 |
| Transcription.NormalisedLabel | src/ai/transcribe.py:164 | a label is already normalised |
| Transcription.NormaliseIdempotent | src/ai/transcribe.py:163-164 | normalising twice is normalising once |
| Transcription.NormalisePaddedLabel | src/ai/transcribe.py:163 | surrounding whitespace does not matter |
| Transcription.LongReplyIsNeutral | src/transcribe.py:150 | a stripped reply longer than every label is neutral |
| Transcription.SentimentColor | src/ai/transcribe.py:197-200 | positive, neutral and negative map to green3, gold1 and red1, and anything else to white. The same code is at src/transcribe.py:183-186 |
| Transcription.NormalisedSentimentIsColoured | src/ai/transcribe.py:197-200 | a normalised sentiment always has one of the three colours |
| Transcription.CleanLine | src/ai/transcribe.py:209 | a line with no `]` becomes "", and cleaning adds no character |
| Transcription.CleanTimestampedLine | src/transcribe.py:195 | a Whisper line `[<stamp>]<text>` becomes its stripped text |
| Transcription.NonBlank | src/ai/transcribe.py:211 | the kept lines are all non-blank |
| Transcription.NonBlankMembers | src/ai/transcribe.py:210-211 | the kept lines are exactly the non-blank input lines |
| Transcription.CleanLines | src/ai/transcribe.py:208-212 | one cleaned line per non-blank input line, in order |
| Transcription.CleanLinesHaveNoNewline | src/transcribe.py:194-198 | lines without a newline clean to lines without one |
| Transcription.NeedsConversion | src/ai/transcribe.py:275-276 | a file that is taken without conversion ends in `.wav` in some mix of cases |
| Transcription.CleanTranscript | src/ai/transcribe.py:208-212 | splitting the cleaned transcript at newlines gives exactly the cleaned lines; a transcript with no non-blank line cleans to "" |
| Transcription.ModelFileName | src/ai/transcribe.py:45 | `whisper-<model>.llamafile`: it starts with `whisper-`, ends with `.llamafile`, and the model name between them is recoverable |
| Transcription.ModelFileNameInjective | src/transcribe.py:63 | different models get different files |
| Transcription.ModelUrl | src/ai/transcribe.py:46 | the URL is the base URL followed by the file name |
| Transcription.ModelPath | src/ai/transcribe.py:76-79 | the local path ends in the file name. The directory is expanded as `os.path.expanduser` does, so for a directory that does not start with `~` it is the download path in that directory |
| Transcription.DownloadPath | src/ai/transcribe.py:45-47 | `install_whisper_model` writes to the directory followed by the file name |
| Transcription.ModelPathUnderHome | src/ai/transcribe.py:78-79 | a directory `~/<rest>` is looked up under the home directory: for a home directory without a trailing slash, the path starts with that directory and `/` |
| Transcription.DownloadLandsAtModelPath | src/ai/transcribe.py:76-87 | the download, given the expanded directory, writes exactly where the model is looked for |
| Transcription.ModelUrlMatchesPath | src/transcribe.py:45-47 | the URL and the download path end in the same file name |
| Transcription.ClassifyResult | src/ai/transcribe.py:130-144 | a nonzero return code raises; whitespace-only output gives `None`; anything else is the stripped output. The same computation is at src/transcribe.py:116-130, which as written is never reached there, because line 95 raises first (first finding) |
| Transcription.TranscriptIsStripped | src/ai/transcribe.py:136-144 | a returned transcript is non-empty and already stripped |
| Transcription.ConversionByExt | src/ai/transcribe.py:275-276 | whether `<dir>/<stem><ext>` is converted depends only on the extension |
| Transcription.LowerExtensions | src/ai/transcribe.py:275 | ".wav" and ".WAV" lower-case to ".wav"; ".mp3" does not |
| Transcription.WavFileNeedsNoConversion | src/ai/transcribe.py:275-276 | a `<stem>.wav` file in any directory is taken as it is |
| Transcription.SessionRecordingNeedsNoConversion | src/ai/transcribe.py:275-276 | `<dir>/recording.wav` is taken as it is |
| Transcription.UpperCaseWavNeedsNoConversion | src/transcribe.py:261-262 | the extension test ignores case |
| Transcription.Mp3NeedsConversion | src/ai/transcribe.py:275-280 | a `<stem>.mp3` file is converted first |
| Transcription.FullResult | src/ai/transcribe.py:302-308 | the analysed result has exactly the five display keys |
| Transcription.FullResultEntries | src/ai/transcribe.py:295-308 | each key holds its own reply, with the sentiment normalised |
| Transcription.TranscribeResult | src/ai/transcribe.py:287-310 | `None` exactly for no or empty transcript. The result is `{text}` alone unless `full_analysis`, and the analysed dictionary otherwise |
| Transcription.ResultHoldsTranscript | src/ai/transcribe.py:302-310 | either way the transcript is under "text" |
| Transcription.AnalysedResultIsDisplayable | src/ai/transcribe.py:295-308 | with the analysis, every display key is present and the sentiment has a colour |
| LegacyTranscription.TranscribeResult | src/transcribe.py:270-282 | `None` exactly for no or empty transcript; otherwise `{text}` alone |
| LegacyTranscription.FullAnalysisIgnored | src/transcribe.py:255-282 | asking for the analysis changes nothing |
| LegacyTranscription.NoSummary | src/transcribe.py:282 | the result never has a summary, nor every display key |
| LegacyTranscription.AgreesWithoutAnalysis | src/transcribe.py:282 | without the analysis, both transcribers return the same dictionary |

## Left out

- Threads and timing. The record thread, `_stop_event.wait`, `sleep` and the join timeouts are not modelled. The recording thread is a sequence of ticks, each carrying the pause flag the thread read at that moment, and the end of the sequence is the stop event. The recorders' `is_paused` field is mirrored by the managers but is not read by `Record`.
- PyAudio, sounddevice, `wave` and pydub. Most calls on them are an outcome passed in (`Host`, `StopOutcomes`, `SaveOutcomes`, `writeOk`).
  - Capture.Setup: the device enumeration of `_get_loopback_device_index` (`get_device_count`, `get_device_info_by_index`) is a plain list of names in `Host`, with no failure outcome. That enumeration raising inside setup's `try`, which makes setup raise, is not modelled.
  - The sample width, the frame rate written to the WAV header and the 16 kHz resampling are not modelled.
  - The temporary file's removal is not modelled.
  - `__del__`, `convert_to_wav` and `list_audio_devices` are not modelled.
- Bytes. `array('h')` conversion uses the machine's byte order, and a chunk of odd byte length raises. Chunks are modelled as sequences of in-range samples.
- Floats. Sample rates and latencies are `real` values; `latency * 1000` is exact here, not float arithmetic.
- `select_audio_device` is modelled only as far as formatting the choices, parsing the selection and finding the device. The prompt and the configuration update and `save` that follow are not modelled; they are UI and configuration writes.
- `Text.Lower` lower-cases ASCII letters only. Python's `str.lower` also maps other Unicode letters. `Text.Strip` uses Python's whitespace set.
- Hotkeys.HotkeyManager.RegisterHandler: the handler table is keyed by the key set itself. The source keys it by `str(frozenset(...))`, whose element order Python does not fix between equal sets. Numbered handlers stand for the callables; hotkey values are strings; logging setup and pynput's `Listener` are not modelled.
- Hotkeys.HotkeyManager.constructor: `hotkeys` is `None` for a configuration object without a `hotkeys` attribute. For either configuration class, a missing section is an empty map. `_setup_logging` reads `config.system.debug_mode`; with the strict configuration of src/config.py, which src/app.py and main.py pass in, a file without `system.debug_mode` makes construction raise `AttributeError`. That exception path is not modelled: the constructor always succeeds.
- YAML parsing and file reading. The parsed document is a parameter: `Option<Value>` for a profile, `Option<map>` for the strict configuration, which leaves out a YAML document that is not a mapping.
- A section present but not a dictionary gives `None` (`CoreConfig.SectionOf`, `LegacyConfig.SectionOf`). Python would build a section over, say, a string and test keys by substring.
- CoreConfig.Config.LoadConfig: of `os.makedirs`, only the exceptions its argument decides are modelled (`MakedirsArgument`). File-system failures such as a missing permission are not. `save_config`'s file write is `Save`'s returned map.
- Paths.ExpandUser: a `~user` path is left as it is. Python looks the user up in the password database.
- LegacyAudio.AudioRecorder.Save: a write that fails after `wave.open` has created the file leaves a truncated file behind. The model only records that `frames` is kept.
- LegacyConfig.Config.LoadConfig: the directory values are only looked up. Creating the directories is not modelled.
- LegacyConfig.RawAttr: an attribute name that is a method of the value's Python type (`items`, `get` or `keys` on a dictionary) would be found by Python; the model treats every name as missing. The names the managers read (`success`, `error`, `system`, `model`) are no such methods.
- Subprocess, download and AI calls.
  - The Whisper run's return code and output are parameters of `ClassifyResult`.
  - `install_whisper_model`, the interactive download prompt and `chmod` are not modelled.
  - The AI replies are the `Analysis` parameter.
  - `export_to_markdown` and `display_rich_output`'s rendering are not modelled; only its transcript cleaning is.
- Transcription.TranscribeResult: the existence check on the audio file, `convert_to_wav` and the temporary file's cleanup are left out. The result is given the transcript `transcribe_audio` produced.
- SessionManager.RecordingManager.GetOutputFilename: `create_session_dir` is the directory passed in, and its exceptions are not modelled. The timestamp it formats is unused by the source.
- SessionManager.RecordingManager.StopRecording: the transcription, `export_to_markdown` and `_save_results_to_markdown` come to one `TranscriptionOutcome`.
- LegacySessionManager.RecordingManager.StartRecording: the strict lookups of `output.timestamp_format`, `output.audio_directory` and `audio.format` are taken to succeed, with their values passed in. The clock reading is the timestamp passed in.
- LegacyTranscription and LegacySessionManager: modelled as if src/transcribe.py imported and its `transcribe_audio` returned. As written, src/transcribe.py:25 raises `AttributeError` at import (first finding), so src/transcribe.py, src/recording_manager.py, main.py and src/app.py never load, and src/transcribe.py:95 makes `transcribe_audio` raise before its result is classified.
- LegacySessionManager.RecordingManager.StopRecording: lines 59-84 of src/recording_manager.py are not modelled. They are unreachable, because line 57 always raises (first finding). The display's key check is modelled by `Displays` instead.

## Findings

| source | as written | input that shows it | evidently intended | confidence | as-written member | corrected member |
|---|---|---|---|---|---|---|
| src/recording_manager.py:57 | `config.display.colors.success` is an attribute access on the plain dictionary that the strict `ConfigSection.__getattr__` of src/config.py:109-112 returns unwrapped. The same happens at lines 62, 87 and 98, and at src/transcribe.py:25-26 and :95 (`config.transcription.whisper.model` at import time, `config.transcription.whisper.gpu_enabled` in `transcribe_audio`) | a configuration with `display: {colors: {success: green}}`: the access raises `AttributeError`, so a successful `stop_recording` raises and never transcribes. `toggle_pause` raises after toggling. With `transcription: {whisper: {model: base}}`, importing src/transcribe.py raises `AttributeError` at line 25, so src/recording_manager.py (line 6), main.py (line 3) and src/app.py (line 5, through src/recording_manager.py) cannot be imported either | the nested lookup `display.colors.success`, giving `green` | not executed | LegacyConfig.AttrChain | LegacyConfig.NestedLookupFinds |
| src/recording_manager.py:75 | the display reads `result['summary']`, but the `transcribe` of src/transcribe.py:282 returns only `{"text": ...}`. This is masked by the first finding, both at src/recording_manager.py:57 and at src/transcribe.py:25 | any non-empty transcript, were `transcribe` to return: `KeyError: 'summary'`, and the results are never displayed | a result carrying the analysis, as the `transcribe` of src/ai/transcribe.py:302-308 returns it | not executed | LegacySessionManager.NeverDisplayed | LegacySessionManager.DisplayedWithAnalysis |

In both rows, the manager's methods model the code as written. The corrected
definitions are kept beside them:

- `LegacyConfig.GetPath` is the nested lookup that the configuration's own key handling (`GetApiKeyIsPathLookup`, `AppliedKeyStays`) is stated through.
- `Transcription.TranscribeResult` is the analysed result.
