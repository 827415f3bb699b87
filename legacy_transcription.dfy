/** `Shallowgram.transcribe` of src/transcribe.py. Its pure helpers are the
    ones of src/ai/transcribe.py, modelled once in `Transcription`; what
    differs is the result, which never carries the analysis. Modelled as
    if the module imported and `transcribe_audio` returned: as written, the
    import-time `config.transcription.whisper.model` of line 25 always
    raises (see `LegacyConfig.AttrChain`). */
module LegacyTranscription {
  import opened Wrappers
  import Transcription

  /** The result for the transcript `transcribe_audio` produced: `None` for
      no transcript, otherwise the text alone. `fullAnalysis` is accepted and
      ignored. */
  function TranscribeResult(transcript: Option<string>, fullAnalysis: bool): (r: Option<map<string, string>>)
    ensures r.None? <==> transcript.None? || transcript.value == []
    ensures r.Some? ==> r.value.Keys == {"text"} && r.value["text"] == transcript.value
  {
    if transcript.None? || transcript.value == [] then None
    else Some(map["text" := transcript.value])
  }

  /** Asking for the analysis changes nothing. */
  lemma FullAnalysisIgnored(transcript: Option<string>)
    ensures TranscribeResult(transcript, true) == TranscribeResult(transcript, false)
  {
  }

  /** The result never has a summary, whatever was asked for. */
  lemma NoSummary(transcript: Option<string>, fullAnalysis: bool)
    ensures var r := TranscribeResult(transcript, fullAnalysis);
      r.Some? ==> "summary" !in r.value && !(Transcription.DisplayKeys <= r.value.Keys)
  {
    var r := TranscribeResult(transcript, fullAnalysis);
    if r.Some? {
      assert "summary" in Transcription.DisplayKeys;
      assert "summary" != "text";
    }
  }

  /** Without the analysis, both versions return the same dictionary. */
  lemma AgreesWithoutAnalysis(transcript: Option<string>, analysis: Transcription.Analysis)
    ensures TranscribeResult(transcript, false) == Transcription.TranscribeResult(transcript, false, analysis)
  {
  }
}
