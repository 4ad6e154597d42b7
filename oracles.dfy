/** What the transcription code asks of libraries it does not contain:
    faster-whisper's `WhisperModel(...)` constructor and its `transcribe`,
    `tempfile`, `soundfile.write`, moviepy's audio extraction. Each is a
    parameter: a function of the call, or the outcome of one step. */
module Oracles {
  import opened Wrappers
  import opened PyStr

  /** A Python value inside a keyword-argument dictionary. */
  datatype Value =
    | IntV(i: int)
    | BoolV(b: bool)
    | StrV(s: string)
    | NoneV
    | DictV(entries: map<string, Value>)

  /** `None` or a string, as a keyword value. */
  function OptionalString(s: Option<string>): Value
  {
    match s
    case Some(v) => StrV(v)
    case None => NoneV
  }

  /** The keyword arguments of one `WhisperModel(...)` construction;
      `downloadRoot` and `cpuThreads` are `None` when the call omits them. */
  datatype LoadRequest = LoadRequest(
    modelSize: string,
    device: string,
    computeType: string,
    downloadRoot: Option<string>,
    cpuThreads: Option<int>)

  /** A loaded model, or the text of the exception the constructor raised. */
  datatype LoadOutcome = Loaded(handle: nat) | LoadRaised(message: string)

  /** The library's answer to each construction request. */
  type Loader = LoadRequest -> LoadOutcome

  datatype Segment = Segment(text: string)

  /** The `info` object of a transcription. */
  datatype Info = Info(
    language: string,
    languageProbability: real,
    duration: real,
    allLanguageProbs: seq<(string, real)>)

  /** One call `model.transcribe(audioPath, **params)`. */
  datatype InferCall = InferCall(audioPath: string, params: map<string, Value>)

  datatype InferOutcome =
    | Inferred(segments: seq<Segment>, info: Info)
    | InferRaised(message: string)

  /** The loaded model's answer to each transcription call. */
  type Inferrer = InferCall -> InferOutcome

  function SegmentTexts(segments: seq<Segment>): (r: seq<string>)
    ensures |r| == |segments|
    ensures forall i :: 0 <= i < |r| ==> r[i] == segments[i].text
  {
    seq(|segments|, i requires 0 <= i < |segments| => segments[i].text)
  }

  /** `" ".join([segment.text for segment in segments])`: the transcript
      holds every segment's text, and is empty when there is no segment. */
  function JoinedText(segments: seq<Segment>): (r: string)
    ensures forall i :: 0 <= i < |segments| ==> Contains(r, segments[i].text)
    ensures |segments| == 0 ==> r == ""
  {
    var texts := SegmentTexts(segments);
    assert forall i :: 0 <= i < |segments| ==> Contains(JoinWith(" ", texts), segments[i].text) by {
      forall i | 0 <= i < |segments| ensures Contains(JoinWith(" ", texts), segments[i].text) {
        JoinWithContains(" ", texts, i);
      }
    }
    JoinWith(" ", texts)
  }

  /** The joined transcript loses no segment and keeps their order: splitting
      it on the single space gives the segment texts back whenever no
      segment text contains a space itself. */
  lemma JoinedTextKeepsSegments(segments: seq<Segment>)
    requires |segments| > 0
    requires forall i :: 0 <= i < |segments| ==> ' ' !in segments[i].text
    ensures Split(JoinedText(segments), ' ') == SegmentTexts(segments)
  {
    SplitJoin(SegmentTexts(segments), ' ');
  }

  /** The outcome of a step that writes a file: its size, or the exception. */
  datatype StepOutcome = Done(size: nat) | Raised(message: string)

  /** `tempfile.NamedTemporaryFile(...)`: the random part of the name it
      created, or the exception it raised. */
  datatype TempOutcome = Created(token: string) | TempRaised(message: string)

  /** The world's answers during one transcription call: the temporary
      directory, the temporary file, the WAV write, the import of moviepy
      (its ImportError text when the package is missing), the video's audio
      extraction and the model's inference. */
  datatype CallEnv = CallEnv(
    tempDir: string,
    tempFile: TempOutcome,
    writeWav: StepOutcome,
    importMoviepy: Outcome<string>,
    extract: StepOutcome,
    infer: Inferrer)
}
