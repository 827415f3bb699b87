/** The pure helpers of src/ai/transcribe.py: sentiment normalisation and
    colour, transcript cleaning, the Whisper model file name and URL, the
    classification of the Whisper run's result, the `.wav` decision and the
    shape of the result `Shallowgram.transcribe` returns. src/transcribe.py
    performs the same computations, with different logging; the members
    here model both. */
module Transcription {
  import opened Wrappers
  import opened Text
  import Paths

  // ------------------------------------------------------------ sentiment

  const Positive: string := "positive"
  const Neutral: string := "neutral"
  const Negative: string := "negative"

  predicate IsSentiment(s: string) {
    s == Positive || s == Neutral || s == Negative
  }

  /** The sentiment `analyze_sentiment` makes of the model's reply. */
  function NormaliseSentiment(reply: string): (r: string)
    ensures IsSentiment(r)
    ensures IsSentiment(Lower(Strip(reply))) ==> r == Lower(Strip(reply))
    ensures !IsSentiment(Lower(Strip(reply))) ==> r == Neutral
  {
    var s := Lower(Strip(reply));
    if IsSentiment(s) then s else Neutral
  }

  /** A word of lower-case ASCII letters is its own lower-cased, stripped form. */
  lemma LowerCaseWord(s: string)
    requires forall i :: 0 <= i < |s| ==> 'a' <= s[i] <= 'z'
    ensures Lower(s) == s && Strip(s) == s
  {
    StripTight(s);
  }

  /** A label is already in normal form. */
  lemma NormalisedLabel(s: string)
    requires IsSentiment(s)
    ensures NormaliseSentiment(s) == s
  {
    LowerCaseWord(s);
  }

  lemma NormaliseIdempotent(reply: string)
    ensures NormaliseSentiment(NormaliseSentiment(reply)) == NormaliseSentiment(reply)
  {
    NormalisedLabel(NormaliseSentiment(reply));
  }

  lemma StripPaddedWord(w: string)
    requires w != [] && !IsSpace(w[0]) && !IsSpace(w[|w| - 1])
    ensures Strip(" " + w + "\n") == w
  {
    var s := " " + w + "\n";
    assert s[1..] == w + "\n";
    assert TrimLeft(w + "\n") == w + "\n";
    assert (w + "\n")[..|w|] == w;
    assert TrimRight(w) == w;
  }

  /** Surrounding whitespace does not matter... */
  lemma NormalisePaddedLabel(word: string)
    requires IsSentiment(word)
    ensures NormaliseSentiment(" " + word + "\n") == word
  {
    LowerCaseWord(word);
    StripPaddedWord(word);
  }

  /** ...but a reply longer than every label, once stripped, is neutral. */
  lemma LongReplyIsNeutral(reply: string)
    requires |Strip(reply)| > 8
    ensures NormaliseSentiment(reply) == Neutral
  {
    assert |Lower(Strip(reply))| > 8;
  }

  /** `get_sentiment_color`. */
  function SentimentColor(sentiment: string): (c: string)
    ensures sentiment == Positive ==> c == "green3"
    ensures sentiment == Neutral ==> c == "gold1"
    ensures sentiment == Negative ==> c == "red1"
    ensures !IsSentiment(sentiment) ==> c == "white"
  {
    if sentiment == Positive then "green3"
    else if sentiment == Neutral then "gold1"
    else if sentiment == Negative then "red1"
    else "white"
  }

  /** A normalised sentiment always has one of the three colours. */
  lemma NormalisedSentimentIsColoured(reply: string)
    ensures SentimentColor(NormaliseSentiment(reply)) != "white"
  {
  }

  // ------------------------------------------------------- transcript text

  /** `line.partition("]")[2].strip()`. */
  function CleanLine(line: string): (r: string)
    ensures ']' !in line ==> r == []
    ensures forall c :: c in r ==> c in line
  {
    var after := AfterFirst(line, ']');
    assert forall c :: c in after ==> c in line;
    Strip(after)
  }

  /** A Whisper line "[<timestamps>]<text>" is cleaned to its stripped text. */
  lemma CleanTimestampedLine(stamp: string, text: string)
    requires ']' !in stamp
    ensures CleanLine("[" + stamp + "]" + text) == Strip(text)
  {
    var line := "[" + stamp + "]" + text;
    var i := IndexOf(line, ']');
    assert line[|stamp| + 1] == ']';
    assert forall k :: 0 <= k < |stamp| + 1 ==> line[k] != ']' by {
      forall k | 0 <= k < |stamp| + 1 ensures line[k] != ']' {
        if k > 0 {
          assert line[k] == stamp[k - 1];
        }
      }
    }
    assert ']' !in line[..|stamp| + 1];
    assert i == |stamp| + 1;
    assert line[i + 1..] == text;
  }

  predicate IsBlank(line: string) {
    Strip(line) == []
  }

  /** The lines the cleaning keeps, in order. */
  function NonBlank(lines: seq<string>): (r: seq<string>)
    ensures |r| <= |lines|
    ensures forall k :: 0 <= k < |r| ==> !IsBlank(r[k])
    decreases |lines|
  {
    if lines == [] then []
    else if IsBlank(lines[0]) then NonBlank(lines[1..])
    else [lines[0]] + NonBlank(lines[1..])
  }

  /** The kept lines are exactly the non-blank input lines. */
  lemma {:induction false} NonBlankMembers(lines: seq<string>, l: string)
    ensures l in NonBlank(lines) <==> l in lines && !IsBlank(l)
    decreases |lines|
  {
    if lines != [] {
      NonBlankMembers(lines[1..], l);
      assert lines == [lines[0]] + lines[1..];
    }
  }

  /** The cleaned lines: one per non-blank input line. */
  function CleanLines(lines: seq<string>): (r: seq<string>)
    ensures |r| == |NonBlank(lines)|
    ensures forall k :: 0 <= k < |r| ==> r[k] == CleanLine(NonBlank(lines)[k])
  {
    var kept := NonBlank(lines);
    seq(|kept|, k requires 0 <= k < |kept| => CleanLine(kept[k]))
  }

  /** `transcript_clean` in `display_rich_output`. Splitting it at newlines
      gives back exactly the cleaned lines, one per non-blank line of the
      input; an input with no non-blank line cleans to "". */
  function CleanTranscript(transcript: string): (r: string)
    ensures NonBlank(Split(transcript, '\n')) != [] ==> Split(r, '\n') == CleanLines(Split(transcript, '\n'))
    ensures NonBlank(Split(transcript, '\n')) == [] ==> r == []
  {
    var lines := Split(transcript, '\n');
    if NonBlank(lines) == [] then Join(CleanLines(lines), '\n')
    else
      CleanLinesHaveNoNewline(lines);
      SplitJoin(CleanLines(lines), '\n');
      Join(CleanLines(lines), '\n')
  }

  /** Cleaning a line adds no character, so lines without a newline clean to
      lines without one. */
  lemma CleanLinesHaveNoNewline(lines: seq<string>)
    requires forall j :: 0 <= j < |lines| ==> '\n' !in lines[j]
    ensures forall k :: 0 <= k < |CleanLines(lines)| ==> '\n' !in CleanLines(lines)[k]
  {
    var cleaned := CleanLines(lines);
    forall k | 0 <= k < |cleaned| ensures '\n' !in cleaned[k] {
      var l := NonBlank(lines)[k];
      NonBlankMembers(lines, l);
      assert '\n' !in l;
    }
  }

  // ---------------------------------------------------------- model files

  /** `full_model_name`. */
  function ModelFileName(model: string): (r: string)
    ensures |r| == |model| + 18 && r[8..|r| - 10] == model
    ensures r[..8] == "whisper-" && r[|r| - 10..] == ".llamafile"
  {
    "whisper-" + model + ".llamafile"
  }

  /** Different models get different files. */
  lemma ModelFileNameInjective(a: string, b: string)
    requires ModelFileName(a) == ModelFileName(b)
    ensures a == b
  {
    assert a == ModelFileName(a)[8..|ModelFileName(a)| - 10];
  }

  /** The download URL: the base URL with the file name appended. */
  function ModelUrl(baseUrl: string, model: string): (r: string)
    ensures |baseUrl| <= |r| && r[..|baseUrl|] == baseUrl && r[|baseUrl|..] == ModelFileName(model)
  {
    baseUrl + ModelFileName(model)
  }

  /** `install_whisper_model`'s `output_path`: the file name joined to the
      directory it is given, unexpanded. */
  function DownloadPath(dir: string, model: string): (r: string)
    ensures |ModelFileName(model)| <= |r| && r[|r| - |ModelFileName(model)|..] == ModelFileName(model)
    ensures |dir| <= |r| && r[..|dir|] == dir
  {
    Paths.Join(dir, ModelFileName(model))
  }

  /** `get_whisper_model_path`'s `model_path`: the file name joined to the
      models directory after `~` expansion against `home`. */
  function ModelPath(dir: string, model: string, home: string): (r: string)
    ensures |ModelFileName(model)| <= |r| && r[|r| - |ModelFileName(model)|..] == ModelFileName(model)
    ensures !Paths.OwnTilde(dir) ==> r == DownloadPath(dir, model)
  {
    Paths.Join(Paths.ExpandUser(dir, home), ModelFileName(model))
  }

  /** A models directory under `~` is looked for under the home directory. */
  lemma ModelPathUnderHome(rest: string, model: string, home: string)
    requires home != [] && home[|home| - 1] != '/'
    ensures var p := ModelPath("~/" + rest, model, home);
      |home| + 1 <= |p| && p[..|home| + 1] == home + "/"
  {
    var dir := "~/" + rest;
    assert Paths.OwnTilde(dir);
    var expanded := Paths.ExpandUser(dir, home);
    assert expanded == home + dir[1..];
    assert dir[1..] == "/" + rest;
    assert expanded[..|home| + 1] == home + "/";
  }

  /** An accepted download goes where the lookup looks:
      `get_whisper_model_path` passes the expanded directory to
      `install_whisper_model`, whose output path is then the model path. */
  lemma DownloadLandsAtModelPath(dir: string, model: string, home: string)
    ensures DownloadPath(Paths.ExpandUser(dir, home), model) == ModelPath(dir, model, home)
  {
  }

  /** The URL and the download path end in the same file name. */
  lemma ModelUrlMatchesPath(baseUrl: string, dir: string, model: string)
    ensures var u := ModelUrl(baseUrl, model); var p := DownloadPath(dir, model);
      var n := |ModelFileName(model)|;
      u[|u| - n..] == p[|p| - n..]
  {
  }

  // ------------------------------------------------------- Whisper result

  /** What `transcribe_audio` makes of the finished process: a nonzero return
      code raises, all-whitespace output gives `None`, anything else is the
      stripped output. */
  function ClassifyResult(returnCode: int, stdout: string, stderr: string): (r: Result<Option<string>, string>)
    ensures r.Failure? <==> returnCode != 0
    ensures r.Failure? ==> r.error == "Transcription failed: " + stderr
    ensures r.Success? ==>
      (r.value.None? <==> forall i :: 0 <= i < |stdout| ==> IsSpace(stdout[i]))
    ensures r.Success? && r.value.Some? ==> r.value.value == Strip(stdout)
  {
    if returnCode != 0 then Failure("Transcription failed: " + stderr)
    else if Strip(stdout) == [] then Success(None)
    else Success(Some(Strip(stdout)))
  }

  /** A transcript that comes back is non-empty and already stripped. */
  lemma TranscriptIsStripped(returnCode: int, stdout: string, stderr: string, t: string)
    requires ClassifyResult(returnCode, stdout, stderr) == Success(Some(t))
    ensures t != [] && Strip(t) == t
  {
    StripIdempotent(stdout);
  }

  // ---------------------------------------------------------- conversion

  /** `os.path.splitext(audio_file)[1].lower() != ".wav"`. */
  predicate NeedsConversion(audioFile: string)
    ensures !NeedsConversion(audioFile) ==>
      4 <= |audioFile| && Lower(audioFile[|audioFile| - 4..]) == ".wav"
  {
    Lower(Paths.Ext(audioFile)) != ".wav"
  }

  /** Whether a file `<stem><ext>` is converted depends only on `ext`,
      whatever directory it is in. */
  lemma ConversionByExt(dir: string, stem: string, ext: string)
    requires Paths.PlainStem(stem) && Paths.PlainExt(ext)
    ensures NeedsConversion(Paths.Join(dir, stem + ext)) <==> Lower(ext) != ".wav"
  {
    Paths.ExtOfFileName(dir, stem, ext);
  }

  /** `.wav` and `.WAV` lower-case to `.wav`; `.mp3` does not. */
  lemma LowerExtensions()
    ensures Lower(".wav") == ".wav" && Lower(".WAV") == ".wav" && Lower(".mp3") != ".wav"
  {
    var w, u, m := Lower(".wav"), Lower(".WAV"), Lower(".mp3");
    assert w[0] == '.' && w[1] == 'w' && w[2] == 'a' && w[3] == 'v';
    assert u[0] == '.' && u[1] == 'w' && u[2] == 'a' && u[3] == 'v';
    assert m[1] == 'm';
  }

  /** A file name `<stem>.wav` with a plain stem is transcribed as it is,
      whatever directory it is in. */
  lemma WavFileNeedsNoConversion(dir: string, stem: string)
    requires Paths.PlainStem(stem)
    ensures !NeedsConversion(Paths.Join(dir, stem + ".wav"))
  {
    assert Paths.PlainExt(".wav");
    ConversionByExt(dir, stem, ".wav");
    LowerExtensions();
  }

  /** A lower-case word is a plain stem. */
  lemma WordIsPlainStem(stem: string)
    requires stem != [] && forall k :: 0 <= k < |stem| ==> 'a' <= stem[k] <= 'z'
    ensures Paths.PlainStem(stem)
  {
  }

  /** The file the session recorder writes, `<session dir>/recording.wav`, is
      transcribed as it is. */
  lemma SessionRecordingNeedsNoConversion(dir: string)
    ensures !NeedsConversion(Paths.Join(dir, "recording.wav"))
  {
    var stem := "recording";
    WordIsPlainStem(stem);
    assert stem + ".wav" == "recording.wav";
    WavFileNeedsNoConversion(dir, stem);
  }

  /** The extension test ignores case... */
  lemma UpperCaseWavNeedsNoConversion(dir: string, stem: string)
    requires Paths.PlainStem(stem)
    ensures !NeedsConversion(Paths.Join(dir, stem + ".WAV"))
  {
    assert Paths.PlainExt(".WAV");
    ConversionByExt(dir, stem, ".WAV");
    LowerExtensions();
  }

  /** ...and anything else is converted first. */
  lemma Mp3NeedsConversion(dir: string, stem: string)
    requires Paths.PlainStem(stem)
    ensures NeedsConversion(Paths.Join(dir, stem + ".mp3"))
  {
    assert Paths.PlainExt(".mp3");
    ConversionByExt(dir, stem, ".mp3");
    LowerExtensions();
  }

  // ------------------------------------------------------ result dictionary

  /** The replies of the four AI queries. */
  datatype Analysis = Analysis(summary: string, sentimentReply: string, intent: string, topics: string)

  const DisplayKeys: set<string> := {"text", "summary", "sentiment", "intent", "topics"}

  /** The dictionary with the analysis: the transcript and the four replies,
      the sentiment normalised. */
  function FullResult(text: string, analysis: Analysis): (r: map<string, string>)
    ensures r.Keys == DisplayKeys
  {
    map["text" := text, "summary" := analysis.summary,
        "sentiment" := NormaliseSentiment(analysis.sentimentReply),
        "intent" := analysis.intent, "topics" := analysis.topics]
  }

  /** Each key of the analysed dictionary holds its own reply. */
  lemma FullResultEntries(text: string, analysis: Analysis)
    ensures var r := FullResult(text, analysis);
      r.Keys == DisplayKeys
      && r["text"] == text && r["summary"] == analysis.summary
      && r["intent"] == analysis.intent && r["topics"] == analysis.topics
      && r["sentiment"] == NormaliseSentiment(analysis.sentimentReply)
  {
    DisplayKeysDistinct();
    FiveEntries("text", "summary", "sentiment", "intent", "topics",
      text, analysis.summary, NormaliseSentiment(analysis.sentimentReply), analysis.intent, analysis.topics);
  }

  /** A map display of five different keys holds each key's own value. */
  lemma FiveEntries(k1: string, k2: string, k3: string, k4: string, k5: string,
                    v1: string, v2: string, v3: string, v4: string, v5: string)
    requires k1 != k2 && k1 != k3 && k1 != k4 && k1 != k5
    requires k2 != k3 && k2 != k4 && k2 != k5 && k3 != k4 && k3 != k5 && k4 != k5
    ensures var m := map[k1 := v1, k2 := v2, k3 := v3, k4 := v4, k5 := v5];
      m[k1] == v1 && m[k2] == v2 && m[k3] == v3 && m[k4] == v4 && m[k5] == v5
  {
  }

  /** The five display keys are different strings. */
  lemma DisplayKeysDistinct()
    ensures "text" != "summary" && "text" != "sentiment" && "text" != "intent" && "text" != "topics"
    ensures "summary" != "sentiment" && "summary" != "intent" && "summary" != "topics"
    ensures "sentiment" != "intent" && "sentiment" != "topics" && "intent" != "topics"
  {
    assert "text"[0] != "summary"[0] && "text"[0] != "intent"[0] && "text"[1] != "topics"[1];
    assert "summary"[1] != "sentiment"[1] && "summary"[0] != "intent"[0] && "summary"[0] != "topics"[0];
    assert "sentiment"[0] != "intent"[0] && "sentiment"[0] != "topics"[0] && "intent"[0] != "topics"[0];
  }

  /** The dictionary `Shallowgram.transcribe` returns for the transcript
      `transcribe_audio` produced: `None` for no transcript, otherwise the
      text, with the analysis when it is asked for. */
  function TranscribeResult(transcript: Option<string>, fullAnalysis: bool, analysis: Analysis): (r: Option<map<string, string>>)
    ensures r.None? <==> transcript.None? || transcript.value == []
    ensures r.Some? && !fullAnalysis ==> r.value.Keys == {"text"}
    ensures r.Some? && fullAnalysis ==> r.value == FullResult(transcript.value, analysis)
  {
    if transcript.None? || transcript.value == [] then None
    else if fullAnalysis then Some(FullResult(transcript.value, analysis))
    else Some(map["text" := transcript.value])
  }

  /** Either way the dictionary holds the transcript under "text". */
  lemma ResultHoldsTranscript(t: string, fullAnalysis: bool, analysis: Analysis)
    requires t != []
    ensures var r := TranscribeResult(Some(t), fullAnalysis, analysis);
      r.Some? && "text" in r.value && r.value["text"] == t
  {
    if fullAnalysis {
      FullResultEntries(t, analysis);
    }
  }

  /** With the analysis, every key the display reads is present and the
      sentiment has a colour. */
  lemma AnalysedResultIsDisplayable(t: string, analysis: Analysis)
    requires t != []
    ensures var r := TranscribeResult(Some(t), true, analysis);
      r.Some? && DisplayKeys <= r.value.Keys && SentimentColor(r.value["sentiment"]) != "white"
  {
    FullResultEntries(t, analysis);
    NormalisedSentimentIsColoured(analysis.sentimentReply);
  }
}
