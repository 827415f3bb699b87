/** `RecordingManager` of src/audio/recording_manager.py: the recording
    session state machine over `is_recording`, `is_paused`,
    `current_recording` and `current_session_dir`, driving the
    `AudioRecorder` of src/audio/audio.py. The recorder's calls, the
    transcriber and the markdown export are outcomes passed in;
    `create_session_dir` is the directory it would return. */
module SessionManager {
  import opened Wrappers
  import opened Capture
  import Paths
  import Transcription
  import LegacyAudio

  const RecordingFileName: string := "recording.wav"

  /** The directory `_get_output_filename` records into: the current one when
      it is set and non-empty (a truthy value), otherwise a new one. */
  function SessionDirFor(current: Option<string>, created: string): (d: string)
    ensures current.Some? && current.value != [] ==> d == current.value
    ensures current.None? || current.value == [] ==> d == created
  {
    if current.Some? && current.value != [] then current.value else created
  }

  /** The file of a session: `recording.wav` in its directory, which the
      transcriber takes as it is, without conversion. */
  function OutputPath(dir: string): (p: string)
    ensures |RecordingFileName| <= |p| && p[|p| - |RecordingFileName|..] == RecordingFileName
    ensures |dir| <= |p| && p[..|dir|] == dir
    ensures !Transcription.NeedsConversion(p)
  {
    Transcription.SessionRecordingNeedsNoConversion(dir);
    Paths.Join(dir, RecordingFileName)
  }

  /** Once a directory is set it is never replaced, so every later recording
      of the manager goes to the same file. */
  lemma LaterRecordingsReuseFile(current: Option<string>, first: string, second: string)
    requires SessionDirFor(current, first) != []
    ensures var d := SessionDirFor(current, first);
      SessionDirFor(Some(d), second) == d && OutputPath(SessionDirFor(Some(d), second)) == OutputPath(d)
  {
  }

  /** What the transcription step of `stop_recording` comes to. */
  datatype TranscriptionOutcome =
    | TranscribeRaised    // `transcribe` raised
    | NoResult            // `transcribe` returned nothing
    | ExportRaised        // `export_to_markdown` raised
    | Exported            // the transcript was exported

  class RecordingManager {
    var isRecording: bool
    var isPaused: bool
    var currentRecording: Option<string>
    var currentSessionDir: Option<string>
    const recorder: LegacyAudio.AudioRecorder

    /** `current_recording` is assigned before `is_recording` is ever set. */
    ghost predicate Valid()
      reads this
    {
      isRecording ==> currentRecording.Some?
    }

    /** Both pause flags agree. */
    ghost predicate PauseMirrored()
      reads this, recorder
    {
      isPaused == recorder.isPaused
    }

    constructor()
      ensures Valid() && PauseMirrored()
      ensures !isRecording && !isPaused && currentRecording == None && currentSessionDir == None
      ensures fresh(recorder) && recorder.frames == [] && !recorder.isRecording
    {
      isRecording := false;
      isPaused := false;
      currentRecording := None;
      currentSessionDir := None;
      recorder := new LegacyAudio.AudioRecorder();
    }

    /** `_get_output_filename`: creates the session directory only when none
      is set; the timestamp it computes is unused. */
    method GetOutputFilename(created: string) returns (path: string)
      modifies this`currentSessionDir
      ensures currentSessionDir == Some(SessionDirFor(old(currentSessionDir), created))
      ensures path == OutputPath(currentSessionDir.value)
    {
      if currentSessionDir.None? || currentSessionDir.value == [] {
        currentSessionDir := Some(created);
      }
      path := OutputPath(currentSessionDir.value);
    }

    /** `start_recording`: nothing changes while recording. Otherwise the
      recording path is set first and `is_recording` only once the
      recorder's `start` returns. */
    method StartRecording(host: Host, settings: Settings, created: string)
      requires Valid()
      modifies this, recorder
      ensures Valid()
      ensures old(isRecording) ==> unchanged(this) && unchanged(recorder)
      ensures !old(isRecording) ==>
        var r := StartEffect(host, settings, old(recorder.StreamFields()));
        currentSessionDir == Some(SessionDirFor(old(currentSessionDir), created))
        && currentRecording == Some(OutputPath(currentSessionDir.value))
        && (isRecording <==> r.ok) && isPaused == old(isPaused)
        && recorder.StreamFields() == r.streams
        && recorder.isRecording == (r.recordingSet || old(recorder.isRecording))
        && recorder.frames == old(recorder.frames) && recorder.isPaused == old(recorder.isPaused)
    {
      if isRecording {
        return;
      }
      var path := GetOutputFilename(created);
      currentRecording := Some(path);
      var ok := recorder.Start(host, settings);
      if ok {
        isRecording := true;
      }
    }

    /** `stop_recording`: nothing happens unless recording. The flags are
      cleared only once the recorder's `stop` and `save` have both returned;
      `recorder.is_paused` is left alone. The recording path is returned
      only when a transcript was exported. */
    method StopRecording(ops: LegacyAudio.StopOutcomes, writeOk: bool, transcription: TranscriptionOutcome)
      returns (path: Option<string>)
      requires Valid()
      modifies this, recorder
      ensures Valid()
      ensures !old(isRecording) ==> path == None && unchanged(this) && unchanged(recorder)
      ensures old(isRecording) ==>
        var stopped := LegacyAudio.StopSucceeds(old(recorder.isRecording), old(recorder.micStream),
                                                 old(recorder.systemStream), ops);
        var saved := stopped && writeOk && old(recorder.micChannels).Some?;
        (isRecording <==> !saved) && (isPaused <==> old(isPaused) && !saved)
        && currentRecording == old(currentRecording) && currentSessionDir == old(currentSessionDir)
        && recorder.isPaused == old(recorder.isPaused)
        && (saved ==> recorder.frames == [] && !recorder.isRecording)
        && (!saved ==> recorder.frames == old(recorder.frames))
        && (path.Some? <==> saved && transcription == Exported)
        && (path.Some? ==> path == old(currentRecording))
    {
      if !isRecording {
        return None;
      }
      var stopped := recorder.Stop(ops);
      if !stopped {
        return None;
      }
      var written := recorder.Save(currentRecording.value, writeOk);
      if written.None? {
        return None;
      }
      isRecording := false;
      isPaused := false;
      if transcription != Exported {
        return None;
      }
      return currentRecording;
    }

    /** `toggle_pause`: nothing changes unless recording; otherwise the flag
      flips and the recorder's copy follows it. */
    method TogglePause()
      modifies this`isPaused, recorder`isPaused
      ensures !old(isRecording) ==> isPaused == old(isPaused) && recorder.isPaused == old(recorder.isPaused)
      ensures old(isRecording) ==> isPaused == !old(isPaused) && PauseMirrored()
    {
      if !isRecording {
        return;
      }
      isPaused := !isPaused;
      recorder.isPaused := isPaused;
    }
  }

  /** Toggling twice while recording brings the pause flag back and leaves
    both copies in agreement. */
  method ToggleTwice(m: RecordingManager)
    modifies m`isPaused, m.recorder`isPaused
    ensures m.isPaused == old(m.isPaused)
    ensures old(m.isRecording) ==> m.PauseMirrored()
    ensures !old(m.isRecording) ==> m.recorder.isPaused == old(m.recorder.isPaused)
  {
    m.TogglePause();
    m.TogglePause();
  }

  /** A successful stop taken while paused clears the manager's flag but not
    the recorder's: the two copies stop agreeing. */
  method PausedStopBreaksMirror(m: RecordingManager, ops: LegacyAudio.StopOutcomes, transcription: TranscriptionOutcome)
    requires m.Valid() && m.isRecording && m.isPaused && m.PauseMirrored()
    requires LegacyAudio.StopSucceeds(m.recorder.isRecording, m.recorder.micStream, m.recorder.systemStream, ops)
    requires m.recorder.micChannels.Some?
    modifies m, m.recorder
    ensures !m.isRecording && !m.isPaused && m.recorder.isPaused
    ensures !m.PauseMirrored()
  {
    var _ := m.StopRecording(ops, true, transcription);
  }
}
