/** `RecordingManager` of src/recording_manager.py, the older session state
    machine: the recording path comes from the configured audio directory
    and a timestamp, the directory is created outside the `try`, and the
    messages are coloured from the strict configuration of src/config.py,
    whose `config.display.colors.<name>` always raises. Its `.audio` import
    is taken to reach src/audio/audio.py, whose `AudioRecorder` is
    `LegacyAudio.AudioRecorder`. That needs src/audio/ to be a regular
    package whose `__init__.py` binds `AudioRecorder`, since src/audio.py
    beside it has no `AudioRecorder`; that `__init__.py` is not part of
    this model. Its transcriber is the one of src/transcribe.py. */
module LegacySessionManager {
  import opened Wrappers
  import opened Text
  import opened Capture
  import Paths
  import Transcription
  import LegacyTranscription
  import LegacyAudio
  import LegacyConfig
  import opened Values

  /** `_get_output_filename`: `recording_<timestamp>.<format>` in the audio
      directory; the timestamp is the formatted clock reading. */
  function OutputPath(audioDir: string, timestamp: string, format: string): (p: string)
    ensures var name := "recording_" + timestamp + "." + format;
      |name| <= |p| && p[|p| - |name|..] == name
      && |audioDir| <= |p| && p[..|audioDir|] == audioDir
  {
    Paths.Join(audioDir, "recording_" + timestamp + "." + format)
  }

  /** With a timestamp free of `.` and `/`, the configured format is the
      file's extension: "wav" is transcribed as it is... */
  lemma WavFormatNeedsNoConversion(audioDir: string, timestamp: string)
    requires forall k :: 0 <= k < |timestamp| ==> timestamp[k] != '.' && timestamp[k] != '/'
    ensures !Transcription.NeedsConversion(OutputPath(audioDir, timestamp, "wav"))
  {
    var stem := "recording_" + timestamp;
    assert Paths.PlainStem(stem) by {
      forall k | 0 <= k < |stem| ensures stem[k] != '.' && stem[k] != '/' {
        if k >= 10 {
          assert stem[k] == timestamp[k - 10];
        }
      }
    }
    assert "recording_" + timestamp + "." + "wav" == stem + ".wav";
    Transcription.WavFileNeedsNoConversion(audioDir, stem);
  }

  /** The display of lines 73-79: a truthy result with every key it reads;
      a missing key raises `KeyError`. */
  predicate Displays(result: Option<map<string, string>>) {
    result.Some? && Transcription.DisplayKeys <= result.value.Keys
  }

  /** With the transcriber this manager uses, the results are never
      displayed, whatever it transcribes. */
  lemma NeverDisplayed(transcript: Option<string>)
    ensures !Displays(LegacyTranscription.TranscribeResult(transcript, true))
  {
    LegacyTranscription.NoSummary(transcript, true);
  }

  /** With the transcriber of src/ai/transcribe.py, which returns the
      analysis, every non-empty transcript is displayed. */
  lemma DisplayedWithAnalysis(t: string, analysis: Transcription.Analysis)
    requires t != []
    ensures Displays(Transcription.TranscribeResult(Some(t), true, analysis))
  {
    Transcription.AnalysedResultIsDisplayable(t, analysis);
  }

  /** `config.display.colors.<name>`, which the messages of this manager
      use: it raises for every configuration. */
  function Colour(config: map<string, Value>, name: string): (r: Result<Value, LegacyConfig.AttributeError>)
    ensures r.Failure?
  {
    LegacyConfig.AttrChain(config, "display", "colors", name)
  }

  /** `config.display.colors` itself, which `getattr(..., default)` reads:
      it raises only when the display section has no `colors`. */
  predicate HasColours(config: map<string, Value>) {
    LegacyConfig.Lookup(config, "display", "colors").Success?
  }

  class RecordingManager {
    var isRecording: bool
    var isPaused: bool
    var currentRecording: Option<string>
    const recorder: LegacyAudio.AudioRecorder
    /** The loaded configuration. */
    const config: map<string, Value>

    ghost predicate Valid()
      reads this
    {
      isRecording ==> currentRecording.Some?
    }

    constructor(config: map<string, Value>)
      ensures Valid() && this.config == config
      ensures !isRecording && !isPaused && currentRecording == None
      ensures fresh(recorder) && recorder.frames == [] && !recorder.isRecording
    {
      isRecording := false;
      isPaused := false;
      currentRecording := None;
      recorder := new LegacyAudio.AudioRecorder();
      this.config := config;
    }

    /** `start_recording`: nothing changes while recording. Otherwise the path
      is set, then the audio directory is created (`makedirsOk`), outside the
      `try`: a failure there propagates (`raised`) before the recorder is
      touched. `is_recording` is set only once the recorder's `start`
      returns. Either way the colours are then read, which raises when the
      display section has none. */
    method StartRecording(host: Host, settings: Settings, audioDir: string, timestamp: string,
                          format: string, makedirsOk: bool)
      returns (raised: bool)
      requires Valid()
      modifies this, recorder
      ensures Valid()
      ensures old(isRecording) ==> !raised && unchanged(this) && unchanged(recorder)
      ensures !old(isRecording) ==>
        currentRecording == Some(OutputPath(audioDir, timestamp, format))
        && isPaused == old(isPaused) && (raised <==> !makedirsOk || !HasColours(config))
      ensures !old(isRecording) && !makedirsOk ==> !isRecording && unchanged(recorder)
      ensures !old(isRecording) && makedirsOk ==>
        var r := StartEffect(host, settings, old(recorder.StreamFields()));
        (isRecording <==> r.ok) && recorder.StreamFields() == r.streams
        && recorder.isRecording == (r.recordingSet || old(recorder.isRecording))
        && recorder.frames == old(recorder.frames) && recorder.isPaused == old(recorder.isPaused)
    {
      if isRecording {
        return false;
      }
      currentRecording := Some(OutputPath(audioDir, timestamp, format));
      if !makedirsOk {
        return true;
      }
      var ok := recorder.Start(host, settings);
      if ok {
        isRecording := true;
      }
      raised := !HasColours(config);
    }

    /** `stop_recording`: nothing happens unless recording. The flags are
      cleared only once the recorder's `stop` and `save` have both returned.
      Then the success message reads `config.display.colors.success`, which
      raises; so does the handler's `config.display.colors.error`, on that
      path as on a failed stop or save, and the error leaves the method
      (`raised`) before any transcription. */
    method StopRecording(ops: LegacyAudio.StopOutcomes, writeOk: bool) returns (raised: bool)
      requires Valid()
      modifies this, recorder
      ensures Valid()
      ensures raised <==> old(isRecording)
      ensures !old(isRecording) ==> unchanged(this) && unchanged(recorder)
      ensures old(isRecording) ==>
        var stopped := LegacyAudio.StopSucceeds(old(recorder.isRecording), old(recorder.micStream),
                                                 old(recorder.systemStream), ops);
        var saved := stopped && writeOk && old(recorder.micChannels).Some?;
        (isRecording <==> !saved) && (isPaused <==> old(isPaused) && !saved)
        && currentRecording == old(currentRecording)
        && recorder.isPaused == old(recorder.isPaused)
        && (saved ==> recorder.frames == [] && !recorder.isRecording)
        && (!saved ==> recorder.frames == old(recorder.frames))
    {
      if !isRecording {
        return false;
      }
      var stopped := recorder.Stop(ops);
      if stopped {
        var written := recorder.Save(currentRecording.value, writeOk);
        if written.Some? {
          isRecording := false;
          isPaused := false;
          // `config.display.colors.success` raises; the handler runs next.
          var success := Colour(config, "success");
        }
      }
      var error := Colour(config, "error");
      raised := error.Failure?;
    }

    /** `toggle_pause`: guarded by `is_recording`, flips the flag and
      mirrors it into the recorder, then raises on the colour of the status
      message. */
    method TogglePause() returns (raised: bool)
      modifies this`isPaused, recorder`isPaused
      ensures raised <==> old(isRecording)
      ensures !old(isRecording) ==> isPaused == old(isPaused) && recorder.isPaused == old(recorder.isPaused)
      ensures old(isRecording) ==> isPaused == !old(isPaused) && recorder.isPaused == isPaused
    {
      if !isRecording {
        return false;
      }
      isPaused := !isPaused;
      recorder.isPaused := isPaused;
      raised := Colour(config, "system").Failure?;
    }
  }
}
