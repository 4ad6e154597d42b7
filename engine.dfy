/** backend/core/engine.py: the `STTEngine` that loads a faster-whisper model
    with a chain of fallback configurations and transcribes files, arrays of
    samples and videos. */
module Engine {
  import opened Wrappers
  import opened PyStr
  import opened PyPath
  import opened Oracles
  import opened Fs

  const VideoFormats: seq<string> := [".mp4", ".avi", ".mov", ".mkv", ".flv", ".wmv", ".webm"]

  /** The model sizes that default to "int8" off the GPU. */
  const Int8Sizes: seq<string> := ["medium", "large-v1", "large-v2", "large-v3"]

  const SampleRate := 16000

  /** Python's `a or b` on an optional string: `None` and "" are false. The
      result is one of the operands, a true `a` wins, and the result is
      false only when both operands are. */
  function StringOr(a: Option<string>, b: string): (r: string)
    ensures r == b || (a.Some? && r == a.value)
    ensures a.Some? && a.value != "" ==> r == a.value
    ensures r == "" <==> (a.None? || a.value == "") && b == ""
  {
    if a.Some? && a.value != "" then a.value else b
  }

  /** `cpu_threads or os.cpu_count() or 4`: `None` and 0 are false. */
  function CpuThreadsDefault(cpuThreads: Option<int>, cpuCount: Option<int>): (r: int)
    ensures r != 0
    ensures cpuThreads.Some? && cpuThreads.value != 0 ==> r == cpuThreads.value
    ensures (cpuThreads.None? || cpuThreads.value == 0) && cpuCount.Some? && cpuCount.value != 0 ==> r == cpuCount.value
    ensures (cpuThreads.None? || cpuThreads.value == 0) && (cpuCount.None? || cpuCount.value == 0) ==> r == 4
  {
    if cpuThreads.Some? && cpuThreads.value != 0 then cpuThreads.value
    else if cpuCount.Some? && cpuCount.value != 0 then cpuCount.value
    else 4
  }

  /** The device `_load_model` settles on before its first attempt: the one
      given, otherwise the GPU exactly when it is wanted and it works. */
  function ResolveDevice(device: Option<string>, useGpu: bool, cudaAvailable: bool): (r: string)
    ensures device.Some? ==> r == device.value
    ensures device.None? ==> (r == "cuda" <==> useGpu && cudaAvailable)
    ensures device.None? ==> r == "cuda" || r == "cpu"
  {
    match device
    case Some(d) => d
    case None => if useGpu && cudaAvailable then "cuda" else "cpu"
  }

  /** The compute type of the first attempt: the one given, otherwise
      "float16" on the GPU, and off it "int8" for the large sizes and
      "int8_float16" for the small ones. */
  function ResolveComputeType(computeType: Option<string>, device: string, modelSize: string): (r: string)
    ensures computeType.Some? ==> r == computeType.value
    ensures computeType.None? && device == "cuda" ==> r == "float16"
    ensures computeType.None? && device != "cuda" ==> (r == "int8" <==> modelSize in Int8Sizes)
    ensures computeType.None? && device != "cuda" ==> (r == "int8_float16" <==> modelSize !in Int8Sizes)
  {
    match computeType
    case Some(c) => c
    case None =>
      if device == "cuda" then "float16"
      else if modelSize in Int8Sizes then "int8"
      else "int8_float16"
  }

  /** The (device, compute type) pairs tried after a failed first attempt. */
  function FallbackConfigs(device: string): (r: seq<(string, string)>)
    ensures |r| > 0 && r[|r| - 1] == ("cpu", "int8")
    ensures forall i :: 0 <= i < |r| ==> r[i].0 == device || r[i].0 == "cpu"
    ensures forall i :: 0 <= i < |r| ==> r[i].1 == "int8" || r[i].1 == "int8_float16"
  {
    if device == "cuda" then [("cuda", "int8_float16"), ("cuda", "int8"), ("cpu", "int8")]
    else [("cpu", "int8_float16"), ("cpu", "int8")]
  }

  /** `WhisperModel(**kwargs)` for one configuration: `cpu_threads` is
      passed on the CPU only. */
  function ConfigRequest(modelSize: string, device: string, computeType: string, root: string, threads: int): (r: LoadRequest)
    ensures r.cpuThreads.Some? <==> device == "cpu"
    ensures r.downloadRoot == Some(root)
  {
    LoadRequest(modelSize, device, computeType, Some(root), if device == "cpu" then Some(threads) else None)
  }

  /** The last resort: `WhisperModel("tiny", device="cpu", compute_type="int8",
      download_root=...)`, without `cpu_threads`. */
  function TinyRequest(root: string): LoadRequest
  {
    LoadRequest("tiny", "cpu", "int8", Some(root), None)
  }

  datatype AttemptKind = Primary | Fallback | LastResort

  datatype Attempt = Attempt(kind: AttemptKind, request: LoadRequest)

  function FallbackAttempts(modelSize: string, configs: seq<(string, string)>, root: string, threads: int): (r: seq<Attempt>)
    ensures |r| == |configs|
    ensures forall i :: 0 <= i < |r| ==>
      r[i] == Attempt(Fallback, ConfigRequest(modelSize, configs[i].0, configs[i].1, root, threads))
  {
    seq(|configs|, i requires 0 <= i < |configs| =>
      Attempt(Fallback, ConfigRequest(modelSize, configs[i].0, configs[i].1, root, threads)))
  }

  /** Every attempt `_load_model` may make, in order: the first attempt, the
      fallback configurations of its device, then the tiny model unless the
      requested size already is "tiny". */
  function Attempts(modelSize: string, device: string, computeType: string, root: string, threads: int): (r: seq<Attempt>)
    ensures |r| == 1 + |FallbackConfigs(device)| + (if modelSize != "tiny" then 1 else 0)
    ensures r[0] == Attempt(Primary, ConfigRequest(modelSize, device, computeType, root, threads))
    ensures forall i :: 1 <= i <= |FallbackConfigs(device)| ==>
      r[i] == Attempt(Fallback, ConfigRequest(modelSize, FallbackConfigs(device)[i - 1].0, FallbackConfigs(device)[i - 1].1, root, threads))
    ensures modelSize != "tiny" ==> r[|r| - 1] == Attempt(LastResort, TinyRequest(root))
  {
    [Attempt(Primary, ConfigRequest(modelSize, device, computeType, root, threads))]
      + FallbackAttempts(modelSize, FallbackConfigs(device), root, threads)
      + (if modelSize != "tiny" then [Attempt(LastResort, TinyRequest(root))] else [])
  }

  /** The attempts planned from the engine's settings before loading. */
  function PlannedAttempts(modelSize: string, device: Option<string>, computeType: Option<string>, useGpu: bool,
                           cudaAvailable: bool, root: string, threads: int): seq<Attempt>
  {
    var d := ResolveDevice(device, useGpu, cudaAvailable);
    Attempts(modelSize, d, ResolveComputeType(computeType, d, modelSize), root, threads)
  }

  /** The first attempt that loads, with the model it loads; `None` when
      every attempt raises. */
  function FirstLoaded(atts: seq<Attempt>, load: Loader): (r: Option<(nat, nat)>)
    ensures r.Some? ==> r.value.0 < |atts| && load(atts[r.value.0].request) == Loaded(r.value.1)
    ensures r.Some? ==> forall j :: 0 <= j < r.value.0 ==> load(atts[j].request).LoadRaised?
    ensures r.None? <==> forall j :: 0 <= j < |atts| ==> load(atts[j].request).LoadRaised?
  {
    if |atts| == 0 then None
    else
      match load(atts[0].request)
      case Loaded(h) => Some((0, h))
      case LoadRaised(_) =>
        match FirstLoaded(atts[1..], load)
        case None => None
        case Some((i, h)) => Some((i + 1, h))
  }

  const PrimaryFailed := "首次加载失败("
  const FallbackFailed := "备选配置加载失败("
  const TinyFailed := "加载tiny模型也失败: "

  /** The message logged for one failed attempt. */
  function FailureMessage(a: Attempt, e: string): string
  {
    match a.kind
    case Primary => PrimaryFailed + a.request.device + "/" + a.request.computeType + "): " + e
    case Fallback => FallbackFailed + a.request.device + "/" + a.request.computeType + "): " + e
    case LastResort => TinyFailed + e
  }

  /** `error_messages`: one message per failed attempt before the first one
      that loads, in the order they were made. */
  function FailureLog(atts: seq<Attempt>, load: Loader): (r: seq<string>)
    ensures FirstLoaded(atts, load).None? ==> |r| == |atts|
    ensures FirstLoaded(atts, load).Some? ==> |r| == FirstLoaded(atts, load).value.0
    ensures forall i :: 0 <= i < |r| ==>
      load(atts[i].request).LoadRaised? && r[i] == FailureMessage(atts[i], load(atts[i].request).message)
  {
    if |atts| == 0 then []
    else
      match load(atts[0].request)
      case Loaded(_) => []
      case LoadRaised(e) => [FailureMessage(atts[0], e)] + FailureLog(atts[1..], load)
  }

  /** `msgs` are the messages of the first |msgs| attempts, all failed. */
  predicate Logged(atts: seq<Attempt>, load: Loader, msgs: seq<string>)
  {
    |msgs| <= |atts|
    && forall j :: 0 <= j < |msgs| ==>
      load(atts[j].request).LoadRaised? && msgs[j] == FailureMessage(atts[j], load(atts[j].request).message)
  }

  /** One more failed attempt, one more message. */
  lemma LoggedOneMore(atts: seq<Attempt>, load: Loader, msgs: seq<string>, e: string)
    requires Logged(atts, load, msgs) && |msgs| < |atts|
    requires load(atts[|msgs|].request) == LoadRaised(e)
    ensures Logged(atts, load, msgs + [FailureMessage(atts[|msgs|], e)])
  {
  }

  /** The first attempt that loads is the one after a run of failures. */
  lemma FirstLoadedAt(atts: seq<Attempt>, load: Loader, msgs: seq<string>, h: nat)
    requires Logged(atts, load, msgs) && |msgs| < |atts|
    requires load(atts[|msgs|].request) == Loaded(h)
    ensures FirstLoaded(atts, load) == Some((|msgs|, h))
  {
  }

  /** When every attempt fails, the log holds exactly their messages. */
  lemma AllFailedLog(atts: seq<Attempt>, load: Loader, msgs: seq<string>)
    requires Logged(atts, load, msgs) && |msgs| == |atts|
    ensures FirstLoaded(atts, load).None? && FailureLog(atts, load) == msgs
  {
  }

  /** What `_load_model` leaves behind: the model and configuration of the
      first attempt that loads, or, when none does, a RuntimeError listing
      every failure with the model untouched and the resolved configuration
      kept. */
  ghost predicate LoadReported(atts: seq<Attempt>, load: Loader, dev: string, ct: string,
                               oldModel: Option<nat>, oldSize: string, r: Outcome<LoadError>,
                               model: Option<nat>, modelSize: string, device: Option<string>, computeType: Option<string>)
  {
    match FirstLoaded(atts, load)
    case Some((i, h)) =>
      i < |atts| && r == Pass && model == Some(h) && modelSize == atts[i].request.modelSize
      && device == Some(atts[i].request.device) && computeType == Some(atts[i].request.computeType)
    case None =>
      r == Fail(RuntimeError(FailureLog(atts, load))) && model == oldModel
      && modelSize == oldSize && device == Some(dev) && computeType == Some(ct)
  }

  /** A load after a run of logged failures is what gets reported. */
  lemma ReportLoaded(atts: seq<Attempt>, load: Loader, msgs: seq<string>, h: nat, dev: string, ct: string,
                     oldModel: Option<nat>, oldSize: string)
    requires Logged(atts, load, msgs) && |msgs| < |atts|
    requires load(atts[|msgs|].request) == Loaded(h)
    ensures var a := atts[|msgs|].request;
      LoadReported(atts, load, dev, ct, oldModel, oldSize, Pass, Some(h), a.modelSize, Some(a.device), Some(a.computeType))
  {
    FirstLoadedAt(atts, load, msgs, h);
  }

  /** A log covering every attempt is what gets reported. */
  lemma ReportFailed(atts: seq<Attempt>, load: Loader, msgs: seq<string>, dev: string, ct: string,
                     oldModel: Option<nat>, oldSize: string)
    requires Logged(atts, load, msgs) && |msgs| == |atts|
    ensures LoadReported(atts, load, dev, ct, oldModel, oldSize, Fail(RuntimeError(msgs)), oldModel, oldSize, Some(dev), Some(ct))
  {
    AllFailedLog(atts, load, msgs);
  }

  /** The RuntimeError `_load_model` raises when nothing loads. */
  datatype LoadError = RuntimeError(errorMessages: seq<string>)
  {
    function Message(): string
    {
      "无法加载任何Whisper模型\n详细错误: " + JoinWith(", ", errorMessages)
    }
  }

  /** The model's identity as reported in the transcription details. */
  datatype ModelState = ModelState(modelSize: string, device: string, computeType: string)

  /** The `details` dictionary of a transcription (without `segments_count`). */
  datatype Details = Details(
    language: string,
    languageProbability: real,
    duration: real,
    allLanguageProbs: seq<(string, real)>,
    modelSize: string,
    device: string,
    computeType: string)

  function MakeDetails(info: Info, state: ModelState): Details
  {
    Details(info.language, info.languageProbability, info.duration, info.allLanguageProbs,
            state.modelSize, state.device, state.computeType)
  }

  /** The default transcription parameters; the language is the call's when
      it is given and not empty, otherwise the engine's. */
  function DefaultParams(language: Option<string>, engineLanguage: Option<string>): map<string, Value>
  {
    var lang := if language.Some? && language.value != "" then language else engineLanguage;
    map[
      "beam_size" := IntV(3),
      "language" := OptionalString(lang),
      "vad_filter" := BoolV(true),
      "vad_parameters" := DictV(map["min_silence_duration_ms" := IntV(500)]),
      "condition_on_previous_text" := BoolV(false)]
  }

  /** `transcribe_params.update(kwargs)`: the caller's keyword arguments win. */
  function MergedParams(language: Option<string>, engineLanguage: Option<string>, kwargs: map<string, Value>)
    : (r: map<string, Value>)
    requires "language" !in kwargs
    ensures r.Keys == DefaultParams(language, engineLanguage).Keys + kwargs.Keys
    ensures forall k :: k in kwargs ==> r[k] == kwargs[k]
    ensures forall k :: k in r && k !in kwargs ==> r[k] == DefaultParams(language, engineLanguage)[k]
    ensures r["language"] == OptionalString(if language.Some? && language.value != "" then language else engineLanguage)
    ensures "beam_size" !in kwargs ==> r["beam_size"] == IntV(3)
    ensures "vad_filter" !in kwargs ==> r["vad_filter"] == BoolV(true)
  {
    DefaultParams(language, engineLanguage) + kwargs
  }

  /** `_is_video_file`: `Path(p).suffix.lower()` is a video extension, so a
      video has a suffix of a dot and three or four characters. */
  predicate IsVideo(p: string)
    ensures IsVideo(p) ==> 4 <= |PathSuffix(p)| <= 5 && PathSuffix(p)[0] == '.'
  {
    Lower(PathSuffix(p)) in VideoFormats
  }

  /** Where `_extract_audio_from_video` writes: the temporary directory, the
      video's stem, then "_audio.wav". */
  function ExtractedAudioPath(tempDir: string, videoPath: string): (r: string)
    ensures PathName(r) == PathStem(videoPath) + "_audio.wav"
  {
    var stem := PathStem(videoPath);
    var name := stem + "_audio.wav";
    assert '/' !in name by {
      assert forall i :: |stem| <= i < |name| ==> name[i] == "_audio.wav"[i - |stem|];
    }
    PathNameOfJoin(tempDir, name);
    Join(tempDir, name)
  }

  /** ".wav" is not a video extension, in any case. */
  lemma WavIsNotVideo(p: string)
    requires PathSuffix(p) == ".wav"
    ensures !IsVideo(p)
  {
    WavIsLowerCase();
    WavNotListed();
  }

  lemma WavNotListed()
    ensures ".wav" !in VideoFormats
  {
    assert forall e :: e in VideoFormats ==> e[1] != 'w' || e[2] != 'a';
  }

  /** The extracted audio is a ".wav" file, so it is never taken for a video
      in turn. */
  lemma ExtractedAudioIsNotVideo(tempDir: string, videoPath: string)
    ensures PathSuffix(ExtractedAudioPath(tempDir, videoPath)) == ".wav"
    ensures !IsVideo(ExtractedAudioPath(tempDir, videoPath))
  {
    ExtractedAudioSuffix(tempDir, PathStem(videoPath));
    WavIsNotVideo(ExtractedAudioPath(tempDir, videoPath));
  }

  lemma ExtractedAudioSuffix(tempDir: string, videoStem: string)
    requires '/' !in videoStem
    ensures PathSuffix(Join(tempDir, videoStem + "_audio.wav")) == ".wav"
  {
    var stem := videoStem + "_audio";
    assert '/' !in stem by {
      assert forall i :: |videoStem| <= i < |stem| ==> stem[i] == "_audio"[i - |videoStem|];
    }
    assert videoStem + "_audio.wav" == stem + ".wav";
    PathSuffixOfName(tempDir, stem, ".wav");
  }

  /** The RuntimeError text of a failed extraction. */
  function ExtractFailure(e: string): string
  {
    "无法从视频提取音频: " + e
  }

  /** What `transcribe` accepts: a path, or an array of samples. */
  datatype AudioInput = PathInput(path: string) | ArrayInput(samples: seq<real>)

  /** The input made ready for the model: the path to read, or the
      exception raised on the way; the files then; the temporary WAV file. */
  datatype Prepared = Prepared(audio: Result<string, string>, files: map<string, nat>, tempFile: Option<string>)

  /** An array is written to a fresh temporary ".wav" file. */
  function PrepareInput(files: map<string, nat>, input: AudioInput, env: CallEnv): Prepared
  {
    match input
    case PathInput(p) => Prepared(Ok(p), files, None)
    case ArrayInput(_) =>
      match env.tempFile
      case TempRaised(m) => Prepared(Err(m), files, None)
      case Created(tok) =>
        var t := TempName(env.tempDir, tok, ".wav");
        match env.writeWav
        case Raised(m) => Prepared(Err(m), files[t := 0], Some(t))
        case Done(size) => Prepared(Ok(t), files[t := size], Some(t))
  }

  /** `model.transcribe(path, **params)`, the joined text and the details. */
  function Infer(path: string, params: map<string, Value>, state: ModelState, env: CallEnv): Result<(string, Details), string>
  {
    match env.infer(InferCall(path, params))
    case InferRaised(m) => Err(m)
    case Inferred(segments, info) => Ok((JoinedText(segments), MakeDetails(info, state)))
  }

  /** A video is replaced by its extracted audio before inference. moviepy
      is imported before the `try` that wraps extraction failures, so a
      missing package raises its ImportError as it is. */
  function RunOnPath(files: map<string, nat>, path: string, params: map<string, Value>, state: ModelState, env: CallEnv)
    : (r: (Result<(string, Details), string>, map<string, nat>))
    ensures !IsVideo(path) ==> r.1 == files
    ensures r.1 - {ExtractedAudioPath(env.tempDir, path)} == files - {ExtractedAudioPath(env.tempDir, path)}
  {
    if IsVideo(path) then
      if env.importMoviepy.Fail? then (Err(env.importMoviepy.error), files)
      else
      match env.extract
      case Raised(m) => (Err(ExtractFailure(m)), files)
      case Done(size) =>
        var a := ExtractedAudioPath(env.tempDir, path);
        WriteThenRemove(files, a, size);
        (Infer(a, params, state, env), files[a := size])
    else (Infer(path, params, state, env), files)
  }

  /** `transcribe` as a whole: its result or exception, and the files after
      its `finally` has removed the temporary WAV file. */
  function TranscribeOutcome(files: map<string, nat>, input: AudioInput, params: map<string, Value>, state: ModelState, env: CallEnv)
    : (r: (Result<(string, Details), string>, map<string, nat>))
    ensures input.PathInput? && !IsVideo(input.path) ==> r.1 == files
    ensures input.PathInput? ==>
      r.1 - {ExtractedAudioPath(env.tempDir, input.path)} == files - {ExtractedAudioPath(env.tempDir, input.path)}
    ensures input.ArrayInput? && env.tempFile.Created? ==> TempName(env.tempDir, env.tempFile.token, ".wav") !in r.1
  {
    var prep := PrepareInput(files, input, env);
    var run :=
      match prep.audio
      case Err(m) => (Err(m), prep.files)
      case Ok(p) => RunOnPath(prep.files, p, params, state, env);
    (run.0, if prep.tempFile.Some? then run.1 - {prep.tempFile.value} else run.1)
  }

  /** What `transcribe` may assume of `tempfile`: a created file is new. */
  predicate FreshWav(files: map<string, nat>, locked: set<string>, env: CallEnv)
  {
    env.tempFile.Created? ==> FreshTemp(files, locked, env.tempDir, env.tempFile.token, ".wav")
  }

  /** Transcribing an array leaves the files exactly as they were, whatever
      fails, and the model reads the temporary WAV file, never treated as a
      video. */
  lemma ArrayInputLeavesNoFile(files: map<string, nat>, locked: set<string>, samples: seq<real>,
                               params: map<string, Value>, state: ModelState, env: CallEnv)
    requires FreshWav(files, locked, env)
    ensures TranscribeOutcome(files, ArrayInput(samples), params, state, env).1 == files
    ensures env.tempFile.Created? && env.writeWav.Done? ==>
      TranscribeOutcome(files, ArrayInput(samples), params, state, env).0
        == Infer(TempName(env.tempDir, env.tempFile.token, ".wav"), params, state, env)
  {
    if env.tempFile.Created? {
      if env.writeWav.Done? {
        ArrayWritten(files, locked, samples, params, state, env);
      } else {
        ArrayWriteFailed(files, locked, samples, params, state, env);
      }
    }
  }

  lemma ArrayWritten(files: map<string, nat>, locked: set<string>, samples: seq<real>,
                     params: map<string, Value>, state: ModelState, env: CallEnv)
    requires FreshWav(files, locked, env) && env.tempFile.Created? && env.writeWav.Done?
    ensures TranscribeOutcome(files, ArrayInput(samples), params, state, env)
      == (Infer(TempName(env.tempDir, env.tempFile.token, ".wav"), params, state, env), files)
  {
    var t := TempName(env.tempDir, env.tempFile.token, ".wav");
    var size := env.writeWav.size;
    assert t !in files;
    var prep := PrepareInput(files, ArrayInput(samples), env);
    assert prep == Prepared(Ok(t), files[t := size], Some(t));
    TempWavIsNotVideo(env.tempDir, env.tempFile.token);
    AudioPathTouchesNoFile(prep.files, t, params, state, env);
    assert files[t := size] - {t} == files;
  }

  lemma ArrayWriteFailed(files: map<string, nat>, locked: set<string>, samples: seq<real>,
                         params: map<string, Value>, state: ModelState, env: CallEnv)
    requires FreshWav(files, locked, env) && env.tempFile.Created? && env.writeWav.Raised?
    ensures TranscribeOutcome(files, ArrayInput(samples), params, state, env) == (Err(env.writeWav.message), files)
  {
    var t := TempName(env.tempDir, env.tempFile.token, ".wav");
    assert t !in files;
    assert files[t := 0] - {t} == files;
  }

  lemma TempWavIsNotVideo(dir: string, tok: string)
    requires ValidToken(tok)
    ensures !IsVideo(TempName(dir, tok, ".wav"))
  {
    TempWavSuffix(dir, tok);
    WavIsNotVideo(TempName(dir, tok, ".wav"));
  }

  /** A video's extracted audio stays in the temporary directory after the
      call, whether or not inference succeeds; the model reads that file. */
  lemma VideoInputLeavesExtractedAudio(files: map<string, nat>, videoPath: string,
                                       params: map<string, Value>, state: ModelState, env: CallEnv)
    requires IsVideo(videoPath) && env.importMoviepy.Pass? && env.extract.Done?
    ensures TranscribeOutcome(files, PathInput(videoPath), params, state, env)
      == (Infer(ExtractedAudioPath(env.tempDir, videoPath), params, state, env),
          files[ExtractedAudioPath(env.tempDir, videoPath) := env.extract.size])
  {
  }

  /** Without moviepy a video fails with the ImportError itself, not with the
      RuntimeError that wraps extraction failures, and no file changes. */
  lemma MissingMoviepyIsNotWrapped(files: map<string, nat>, videoPath: string,
                                   params: map<string, Value>, state: ModelState, env: CallEnv)
    requires IsVideo(videoPath) && env.importMoviepy.Fail?
    ensures TranscribeOutcome(files, PathInput(videoPath), params, state, env) == (Err(env.importMoviepy.error), files)
  {
  }

  /** A path that is not a video is read as it is and no file changes. */
  lemma AudioPathTouchesNoFile(files: map<string, nat>, path: string,
                               params: map<string, Value>, state: ModelState, env: CallEnv)
    requires !IsVideo(path)
    ensures TranscribeOutcome(files, PathInput(path), params, state, env) == (Infer(path, params, state, env), files)
    ensures RunOnPath(files, path, params, state, env) == (Infer(path, params, state, env), files)
  {
  }

  /** A successful transcription is the model's segments joined by spaces,
      with the details of its `info` and of the loaded model. */
  lemma TranscriptIsJoinedSegments(path: string, params: map<string, Value>, state: ModelState, env: CallEnv)
    requires Infer(path, params, state, env).Ok?
    ensures env.infer(InferCall(path, params)).Inferred?
    ensures var out := env.infer(InferCall(path, params));
      Infer(path, params, state, env).value.0 == JoinedText(out.segments)
      && Infer(path, params, state, env).value.1.language == out.info.language
      && Infer(path, params, state, env).value.1.modelSize == state.modelSize
      && Infer(path, params, state, env).value.1.device == state.device
  {
  }

  /** Every configuration plan ends on the CPU with "int8" for the requested
      size, whatever device and compute type it started from. */
  lemma CpuInt8IsAlwaysTried(modelSize: string, device: string, computeType: string, root: string, threads: int)
    ensures var atts := Attempts(modelSize, device, computeType, root, threads);
      var k := |FallbackConfigs(device)|;
      atts[k] == Attempt(Fallback, LoadRequest(modelSize, "cpu", "int8", Some(root), Some(threads)))
  {
  }

  /** `cpu_threads` reaches the library exactly for the CPU attempts of the
      requested size; the tiny last resort never gets it. */
  lemma ThreadsOnlyOnCpu(modelSize: string, device: string, computeType: string, root: string, threads: int)
    ensures var atts := Attempts(modelSize, device, computeType, root, threads);
      forall i :: 0 <= i < |atts| ==>
        (atts[i].request.cpuThreads.Some? <==> atts[i].request.device == "cpu" && atts[i].kind != LastResort)
  {
    var atts := Attempts(modelSize, device, computeType, root, threads);
    forall i | 0 <= i < |atts|
      ensures atts[i].request.cpuThreads.Some? <==> atts[i].request.device == "cpu" && atts[i].kind != LastResort
    {
      if i == 0 {
      } else if i <= |FallbackConfigs(device)| {
      } else {
        assert modelSize != "tiny";
      }
    }
  }

  /** A GPU that cannot load the model in any CUDA configuration does not
      stop the engine: when the CPU loads it, the CUDA failures are only
      logged and the engine runs on the CPU. */
  lemma GpuFailureFallsBackToCpu(modelSize: string, computeType: string, root: string, threads: int, load: Loader)
    requires forall a: LoadRequest :: a.device == "cuda" ==> load(a).LoadRaised?
    requires load(LoadRequest(modelSize, "cpu", "int8", Some(root), Some(threads))).Loaded?
    ensures var atts := Attempts(modelSize, "cuda", computeType, root, threads);
      FirstLoaded(atts, load).Some?
      && atts[FirstLoaded(atts, load).value.0].request.device == "cpu"
      && |FailureLog(atts, load)| == 3
  {
    var atts := Attempts(modelSize, "cuda", computeType, root, threads);
    assert atts[0].request.device == "cuda";
    assert atts[1].request.device == "cuda";
    assert atts[2].request.device == "cuda";
    assert atts[3].request == LoadRequest(modelSize, "cpu", "int8", Some(root), Some(threads));
  }

  /** When loading fails the error lists every attempt: four or five messages
      for a size other than "tiny", depending on the device. */
  lemma LoadErrorListsEveryAttempt(modelSize: string, device: string, computeType: string, root: string, threads: int, load: Loader)
    requires modelSize != "tiny"
    requires FirstLoaded(Attempts(modelSize, device, computeType, root, threads), load).None?
    ensures var log := FailureLog(Attempts(modelSize, device, computeType, root, threads), load);
      |log| == (if device == "cuda" then 5 else 4)
      && log[|log| - 1] == TinyFailed + load(TinyRequest(root)).message
  {
  }

  /** Every attempt but the last passes the size by keyword, the tiny one
      positionally. A loader that refuses every request except the tiny one
      therefore ends on "tiny" after one logged failure per other attempt. */
  lemma OnlyTinyLoads(modelSize: string, device: string, computeType: string, root: string, threads: int, load: Loader)
    requires modelSize != "tiny"
    requires forall a: LoadRequest :: a != TinyRequest(root) ==> load(a).LoadRaised?
    requires load(TinyRequest(root)).Loaded?
    ensures var atts := Attempts(modelSize, device, computeType, root, threads);
      FirstLoaded(atts, load) == Some((|atts| - 1, load(TinyRequest(root)).handle))
      && |FailureLog(atts, load)| == |atts| - 1
  {
    var atts := Attempts(modelSize, device, computeType, root, threads);
    assert forall i :: 0 <= i < |atts| - 1 ==> atts[i].request.modelSize == modelSize;
  }

  /** The engine: the settings it was built with, the configuration it ended
      up with, and the loaded model (a handle from the loader). */
  class STTEngine {
    var modelSize: string
    const useGpu: bool
    var device: Option<string>
    var computeType: Option<string>
    const downloadRoot: string
    const cpuThreads: int
    const language: Option<string>
    var model: Option<nat>

    /** The field defaults of `__init__`; `defaultRoot` is the expanded
        "~/.cache/whisper" and `cpuCount` is `os.cpu_count()`. */
    constructor (modelSize: string, useGpu: bool, device: Option<string>, computeType: Option<string>,
                 downloadRoot: Option<string>, cpuThreads: Option<int>, language: Option<string>,
                 defaultRoot: string, cpuCount: Option<int>)
      ensures this.modelSize == modelSize && this.useGpu == useGpu
      ensures this.device == device && this.computeType == computeType
      ensures this.downloadRoot == StringOr(downloadRoot, defaultRoot)
      ensures this.cpuThreads == CpuThreadsDefault(cpuThreads, cpuCount)
      ensures this.language == language && this.model == None
    {
      this.modelSize := modelSize;
      this.useGpu := useGpu;
      this.device := device;
      this.computeType := computeType;
      this.downloadRoot := StringOr(downloadRoot, defaultRoot);
      this.cpuThreads := CpuThreadsDefault(cpuThreads, cpuCount);
      this.language := language;
      this.model := None;
    }

    /** `_load_model`: the first attempt, then the fallbacks until one loads,
        then the tiny model; the configuration that loaded becomes the
        engine's, and when none does the RuntimeError lists every failure. */
    method LoadModel(cudaAvailable: bool, load: Loader) returns (r: Outcome<LoadError>)
      modifies this
      ensures var dev := ResolveDevice(old(device), useGpu, cudaAvailable);
        var ct := ResolveComputeType(old(computeType), dev, old(modelSize));
        LoadReported(Attempts(old(modelSize), dev, ct, downloadRoot, cpuThreads), load, dev, ct,
                     old(model), old(modelSize), r, model, modelSize, device, computeType)
    {
      var dev := ResolveDevice(device, useGpu, cudaAvailable);
      device := Some(dev);
      var ct := ResolveComputeType(computeType, dev, modelSize);
      computeType := Some(ct);
      ghost var atts := Attempts(modelSize, dev, ct, downloadRoot, cpuThreads);
      var errorMessages: seq<string> := [];
      // once an attempt loads, every later step is skipped: each success
      // returns at once
      var primary := Attempt(Primary, ConfigRequest(modelSize, dev, ct, downloadRoot, cpuThreads));
      match load(primary.request) {
        case Loaded(h) =>
          model := Some(h);
          ReportLoaded(atts, load, errorMessages, h, dev, ct, old(model), old(modelSize));
          return Pass;
        case LoadRaised(e) =>
          LoggedOneMore(atts, load, errorMessages, e);
          errorMessages := errorMessages + [FailureMessage(primary, e)];
      }
      var configs := FallbackConfigs(dev);
      var i := 0;
      while i < |configs|
        invariant 0 <= i <= |configs|
        invariant model == old(model) && modelSize == old(modelSize)
        invariant device == Some(dev) && computeType == Some(ct)
        invariant |errorMessages| == i + 1 && Logged(atts, load, errorMessages)
      {
        var (d, c) := configs[i];
        var fallback := Attempt(Fallback, ConfigRequest(modelSize, d, c, downloadRoot, cpuThreads));
        assert fallback == atts[i + 1];
        match load(fallback.request) {
          case Loaded(h) =>
            model := Some(h);
            device := Some(d);
            computeType := Some(c);
            ReportLoaded(atts, load, errorMessages, h, dev, ct, old(model), old(modelSize));
            return Pass;
          case LoadRaised(e) =>
            LoggedOneMore(atts, load, errorMessages, e);
            errorMessages := errorMessages + [FailureMessage(fallback, e)];
        }
        i := i + 1;
      }
      if modelSize != "tiny" {
        var tiny := Attempt(LastResort, TinyRequest(downloadRoot));
        assert tiny == atts[|errorMessages|];
        match load(tiny.request) {
          case Loaded(h) =>
            ReportLoaded(atts, load, errorMessages, h, dev, ct, old(model), old(modelSize));
            model := Some(h);
            modelSize := "tiny";
            device := Some("cpu");
            computeType := Some("int8");
            return Pass;
          case LoadRaised(e) =>
            LoggedOneMore(atts, load, errorMessages, e);
            errorMessages := errorMessages + [FailureMessage(tiny, e)];
        }
      }
      ReportFailed(atts, load, errorMessages, dev, ct, old(model), old(modelSize));
      return Fail(RuntimeError(errorMessages));
    }

    /** `_extract_audio_from_video`: the audio track is written next to the
        other temporary files, or the failure is raised as a RuntimeError. */
    method ExtractAudioFromVideo(fs: FileSystem, videoPath: string, tempDir: string,
                                 importMoviepy: Outcome<string>, extract: StepOutcome)
      returns (r: Result<string, string>)
      modifies fs
      ensures importMoviepy.Fail? ==> r == Err(importMoviepy.error) && fs.files == old(fs.files)
      ensures importMoviepy.Pass? && extract.Done? ==>
        r == Ok(ExtractedAudioPath(tempDir, videoPath))
        && fs.files == old(fs.files)[ExtractedAudioPath(tempDir, videoPath) := extract.size]
      ensures importMoviepy.Pass? && extract.Raised? ==>
        r == Err(ExtractFailure(extract.message)) && fs.files == old(fs.files)
    {
      // the import precedes the `try`: its ImportError is not wrapped
      if importMoviepy.Fail? {
        return Err(importMoviepy.error);
      }
      var audioFile := Join(tempDir, PathStem(videoPath) + "_audio.wav");
      match extract {
        case Done(size) =>
          fs.Write(audioFile, size);
          return Ok(audioFile);
        case Raised(e) =>
          return Err(ExtractFailure(e));
      }
    }

    /** `transcribe(audio_input, language, **kwargs)` on a loaded engine. */
    method Transcribe(fs: FileSystem, input: AudioInput, language: Option<string>, kwargs: map<string, Value>, env: CallEnv)
      returns (r: Result<(string, Details), string>)
      requires model.Some? && device.Some? && computeType.Some?
      requires "language" !in kwargs
      requires input.ArrayInput? ==> FreshWav(fs.files, fs.locked, env)
      modifies fs
      ensures (r, fs.files) == TranscribeOutcome(old(fs.files), input, MergedParams(language, this.language, kwargs),
                                                 ModelState(modelSize, device.value, computeType.value), env)
    {
      var params := MergedParams(language, this.language, kwargs);
      var state := ModelState(modelSize, device.value, computeType.value);
      var audio, tempFile := PrepareAudio(fs, input, env);
      ghost var prepared := fs.files;
      if tempFile.Some? {
        TempWavIsNotVideo(env.tempDir, env.tempFile.token);
      }
      var raised := audio.Err?;
      var audioPath := if raised then "" else audio.value;
      r := if raised then Err(audio.error) else Err("");
      if !raised && IsVideo(audioPath) {
        var extracted := ExtractAudioFromVideo(fs, audioPath, env.tempDir, env.importMoviepy, env.extract);
        match extracted {
          case Ok(a) =>
            audioPath := a;
          case Err(m) =>
            r := Err(m);
            raised := true;
        }
      }
      if !raised {
        r := Infer(audioPath, params, state, env);
      }
      assert audio.Ok? ==> (r, fs.files) == RunOnPath(prepared, audio.value, params, state, env);
      // finally: the temporary WAV file is removed
      if tempFile.Some? && fs.Exists(tempFile.value) {
        var err := fs.Unlink(tempFile.value);
        assert err.None?;
      }
    }

    /** The `isinstance(audio_input, np.ndarray)` branch of `transcribe`: the
        samples go to a new temporary ".wav" file, which is then the path to
        read; a path is read as it is. */
    method PrepareAudio(fs: FileSystem, input: AudioInput, env: CallEnv)
      returns (audio: Result<string, string>, tempFile: Option<string>)
      requires input.ArrayInput? ==> FreshWav(fs.files, fs.locked, env)
      modifies fs
      ensures Prepared(audio, fs.files, tempFile) == PrepareInput(old(fs.files), input, env)
      ensures tempFile.Some? ==> tempFile.value in fs.files && tempFile.value !in fs.locked
    {
      match input {
        case PathInput(p) =>
          return Ok(p), None;
        case ArrayInput(_) =>
          match env.tempFile {
            case TempRaised(m) =>
              return Err(m), None;
            case Created(tok) =>
              var t := TempName(env.tempDir, tok, ".wav");
              // `NamedTemporaryFile` leaves an empty file that `sf.write` fills
              var size := if env.writeWav.Done? then env.writeWav.size else 0;
              fs.Write(t, size);
              if env.writeWav.Raised? {
                return Err(env.writeWav.message), Some(t);
              }
              return Ok(t), Some(t);
          }
      }
    }
  }

  /** `get_available_models`. */
  function GetAvailableModels(): (r: seq<string>)
    ensures "tiny" in r && "medium" in r
    ensures forall s :: s in Int8Sizes ==> s in r
    ensures forall i, j :: 0 <= i < j < |r| ==> r[i] != r[j]
  {
    ["tiny", "base", "small", "medium", "large-v1", "large-v2", "large-v3"]
  }
}
