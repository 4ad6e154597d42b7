/** The original single-file application: the `SpeechToText` class with its
    simpler GPU/CPU choice, its own list of video extensions, the name of the
    audio it extracts from a video, and a cleanup rule that deletes the file
    it transcribed when the path looks like one of its temporary files. */
module App {
  import opened Wrappers
  import opened PyStr
  import opened PyPath
  import opened Oracles
  import opened Fs

  const SampleRate := 16000

  /** The extensions `is_video_file` accepts (".webm" is not among them). */
  const VideoExtensions := [".mp4", ".avi", ".mov", ".mkv", ".flv", ".wmv"]

  /** The names `get_available_models` lists. */
  function GetAvailableModels(): (r: seq<string>)
    ensures |r| == 7 && r[0] == "tiny" && r[6] == "large-v3"
  {
    ["tiny", "base", "small", "medium", "large-v1", "large-v2", "large-v3"]
  }

  /** `WhisperModel(model_size, device=..., compute_type=...)`: the legacy
      class passes neither a download root nor a thread count. */
  function DeviceRequest(modelSize: string, device: string, computeType: string): LoadRequest
  {
    LoadRequest(modelSize, device, computeType, None, None)
  }

  /** What `__init__` ends with: the configuration that loaded and the model,
      or the exception of the CPU load, which nothing catches. The GPU is
      tried first, in "float16", only when CUDA is usable and `force_gpu` is
      set; its failure is only logged. */
  function InitialLoad(modelSize: string, cudaAvailable: bool, forceGpu: bool, load: Loader)
    : (r: Result<(LoadRequest, nat), string>)
    ensures r.Ok? ==> load(r.value.0) == Loaded(r.value.1)
    ensures r.Ok? ==> (r.value.0 == DeviceRequest(modelSize, "cuda", "float16")
                       || r.value.0 == DeviceRequest(modelSize, "cpu", "int8"))
    ensures r.Err? ==> load(DeviceRequest(modelSize, "cpu", "int8")) == LoadRaised(r.error)
  {
    var gpu := DeviceRequest(modelSize, "cuda", "float16");
    var cpu := DeviceRequest(modelSize, "cpu", "int8");
    if cudaAvailable && forceGpu && load(gpu).Loaded? then Ok((gpu, load(gpu).handle))
    else
      match load(cpu)
      case Loaded(h) => Ok((cpu, h))
      case LoadRaised(m) => Err(m)
  }

  /** The GPU runs the model exactly when CUDA is usable, `force_gpu` is set
      and the GPU load succeeds; every other case ends on the CPU in "int8",
      and a CPU failure is the constructor's exception. */
  lemma GpuOnlyWhenForced(modelSize: string, cudaAvailable: bool, forceGpu: bool, load: Loader)
    ensures var r := InitialLoad(modelSize, cudaAvailable, forceGpu, load);
      (r.Ok? && r.value.0.device == "cuda")
        <==> cudaAvailable && forceGpu && load(DeviceRequest(modelSize, "cuda", "float16")).Loaded?
    ensures var r := InitialLoad(modelSize, cudaAvailable, forceGpu, load);
      r.Err? <==>
        !(cudaAvailable && forceGpu && load(DeviceRequest(modelSize, "cuda", "float16")).Loaded?)
        && load(DeviceRequest(modelSize, "cpu", "int8")).LoadRaised?
  {
  }

  /** `is_video_file`: the `splitext` extension, lower-cased, is one of the
      six video extensions. */
  predicate IsVideoFile(p: string)
    ensures IsVideoFile(p) ==> |SplitExt(p).1| == 4 && SplitExt(p).1[0] == '.'
  {
    Lower(SplitExt(p).1) in VideoExtensions
  }

  /** Where `extract_audio_from_video` writes: the temporary directory joined
      with the video's base name (either separator), without its extension,
      followed by "_audio.wav". */
  /** The name is never absolute, so `os.path.join` keeps the directory:
      the path is the directory part, then the video's stem and "_audio.wav". */
  function ExtractedPath(tempDir: string, videoFile: string): (r: string)
    ensures var s := SplitExt(NtBasename(videoFile)).0;
      '/' !in s && r == DirPart(tempDir) + (s + "_audio.wav")
  {
    var s := SplitExt(NtBasename(videoFile)).0;
    StemOfName(NtBasename(videoFile));
    RelativeAudioName(s);
    Join(tempDir, s + "_audio.wav")
  }

  /** The rule `transcribe` cleans up by: the path contains "_audio.wav" and
      the temporary directory's name, as substrings. The empty string is in
      every string, so with an empty directory name the rule reduces to the
      "_audio.wav" test. */
  predicate SelfCleaned(path: string, tempDir: string)
    ensures SelfCleaned(path, tempDir) ==> |path| >= |tempDir| && |path| >= |"_audio.wav"|
    ensures tempDir == "" ==> (SelfCleaned(path, tempDir) <==> Contains(path, "_audio.wav"))
  {
    assert OccursAt(path, "", 0);
    Contains(path, "_audio.wav") && Contains(path, tempDir)
  }

  /** The `transcribe` call's keyword arguments. */
  function TranscribeParams(language: Option<string>): map<string, Value>
  {
    map["beam_size" := IntV(5), "language" := OptionalString(language)]
  }

  /** The `details` dictionary (without `segments_count`). */
  datatype Details = Details(language: string, languageProbability: real, duration: real)

  /** `extract_audio_from_video`: the extracted file, or moviepy's exception
      re-raised, and the files afterwards. */
  function ExtractOutcome(files: map<string, nat>, tempDir: string, videoFile: string, extract: StepOutcome)
    : (r: (Result<string, string>, map<string, nat>))
    ensures r.0.Ok? ==> r.0.value == ExtractedPath(tempDir, videoFile) && r.0.value in r.1
    ensures r.0.Ok? ==> r.1 - {r.0.value} == files - {r.0.value}
    ensures r.0.Err? ==> r.1 == files
  {
    match extract
    case Raised(m) => (Err(m), files)
    case Done(size) =>
      var a := ExtractedPath(tempDir, videoFile);
      (Ok(a), files[a := size])
  }

  /** `transcribe(audio_file, language)` as a whole: a video is replaced by
      its extracted audio, the model reads the file, and after a successful
      inference the file is removed when it matches the cleanup rule, a
      failed removal being ignored. Nothing is removed when anything raises. */
  function TranscribeOutcome(files: map<string, nat>, locked: set<string>, audioFile: string,
                             language: Option<string>, env: CallEnv)
    : (r: (Result<(string, Details), string>, map<string, nat>))
    ensures !IsVideoFile(audioFile) ==> r.1 - {audioFile} == files - {audioFile}
    ensures IsVideoFile(audioFile) ==>
      r.1 - {ExtractedPath(env.tempDir, audioFile)} == files - {ExtractedPath(env.tempDir, audioFile)}
    ensures r.0.Err? && !IsVideoFile(audioFile) ==> r.1 == files
  {
    var ext := if IsVideoFile(audioFile) then ExtractOutcome(files, env.tempDir, audioFile, env.extract)
               else (Ok(audioFile), files);
    match ext.0
    case Err(m) => (Err(m), ext.1)
    case Ok(path) =>
      match env.infer(InferCall(path, TranscribeParams(language)))
      case InferRaised(m) => (Err(m), ext.1)
      case Inferred(segments, info) =>
        (Ok((JoinedText(segments), Details(info.language, info.languageProbability, info.duration))),
         if SelfCleaned(path, env.tempDir) then Unlinked(ext.1, locked, path).1 else ext.1)
  }

  /** ".wav" is not a video extension, in any case. */
  lemma WavIsNotVideo(p: string)
    requires SplitExt(p).1 == ".wav"
    ensures !IsVideoFile(p)
  {
    WavIsLowerCase();
    WavNotListed();
  }

  lemma WavNotListed()
    ensures ".wav" !in VideoExtensions
  {
    assert forall e :: e in VideoExtensions ==> e[1] != 'w' || e[2] != 'a';
  }

  /** The part of a slash-free name before its extension is slash-free. */
  lemma StemOfName(b: string)
    requires '/' !in b
    ensures '/' !in SplitExt(b).0
  {
    var s := SplitExt(b).0;
    assert s + SplitExt(b).1 == b;
    assert forall i :: 0 <= i < |s| ==> s[i] == b[i];
  }

  /** A slash-free stem followed by "_audio" is a slash-free stem that is
      not all dots. */
  lemma AudioStem(s: string)
    requires '/' !in s
    ensures '/' !in s + "_audio" && HasNonDot(s + "_audio")
  {
    var stem := s + "_audio";
    assert stem[|s|] == '_';
    forall i | 0 <= i < |stem|
      ensures stem[i] != '/'
    {
      if i < |s| {
        assert stem[i] == s[i];
      } else {
        assert stem[i] == "_audio"[i - |s|];
      }
    }
  }

  lemma RelativeAudioName(s: string)
    requires '/' !in s
    ensures !IsAbsolute(s + "_audio.wav")
  {
    var name := s + "_audio.wav";
    if |s| > 0 {
      assert name[0] == s[0];
    } else {
      assert name[0] == '_';
    }
  }

  /** "_audio.wav" occurs in any path ending with it. */
  lemma EndsWithAudioWav(d: string, s: string)
    ensures Contains(d + (s + "_audio.wav"), "_audio.wav")
  {
    var q := d + (s + "_audio.wav");
    assert q[|d| + |s|..|d| + |s| + 10] == "_audio.wav";
    assert OccursAt(q, "_audio.wav", |d| + |s|);
  }

  /** The extracted audio is always covered by the cleanup rule, whatever
      the video's name and wherever the temporary directory is. */
  lemma ExtractedPathIsSelfCleaned(tempDir: string, videoFile: string)
    ensures SelfCleaned(ExtractedPath(tempDir, videoFile), tempDir)
  {
    var s := SplitExt(NtBasename(videoFile)).0;
    EndsWithAudioWav(DirPart(tempDir), s);
    JoinContainsDir(tempDir, s + "_audio.wav");
  }

  /** A name ending in "_audio.wav" under a directory has the extension ".wav". */
  lemma AudioWavExtension(d: string, s: string)
    requires d == "" || d[|d| - 1] == '/'
    requires '/' !in s
    ensures SplitExt(d + (s + "_audio.wav")).1 == ".wav"
  {
    AudioStem(s);
    SplitExtOfPath(d, s + "_audio", ".wav");
    AudioWavSplit(s);
    ConcatAssoc(d, s + "_audio", ".wav");
  }

  lemma AudioWavSplit(s: string)
    ensures s + "_audio.wav" == (s + "_audio") + ".wav"
  {
    ConcatAssoc(s, "_audio", ".wav");
    assert "_audio" + ".wav" == "_audio.wav";
  }

  /** The extracted audio's extension is ".wav", so it is never taken for a
      video in turn. */
  lemma ExtractedPathIsNotVideo(tempDir: string, videoFile: string)
    ensures SplitExt(ExtractedPath(tempDir, videoFile)).1 == ".wav"
    ensures !IsVideoFile(ExtractedPath(tempDir, videoFile))
  {
    AudioWavExtension(DirPart(tempDir), SplitExt(NtBasename(videoFile)).0);
    WavIsNotVideo(ExtractedPath(tempDir, videoFile));
  }

  /** A video whose audio is transcribed: the extracted audio is removed
      afterwards, together with any earlier file of that name, and the
      transcript is that of the extracted audio. */
  lemma VideoSuccessRemovesExtractedAudio(files: map<string, nat>, locked: set<string>, videoFile: string,
                                          language: Option<string>, env: CallEnv)
    requires IsVideoFile(videoFile) && env.extract.Done?
    requires ExtractedPath(env.tempDir, videoFile) !in locked
    requires env.infer(InferCall(ExtractedPath(env.tempDir, videoFile), TranscribeParams(language))).Inferred?
    ensures var r := TranscribeOutcome(files, locked, videoFile, language, env);
      r.0.Ok? && r.0.value.0 == JoinedText(env.infer(InferCall(ExtractedPath(env.tempDir, videoFile), TranscribeParams(language))).segments)
      && r.1 == files - {ExtractedPath(env.tempDir, videoFile)}
  {
    var a := ExtractedPath(env.tempDir, videoFile);
    ExtractedPathIsSelfCleaned(env.tempDir, videoFile);
    WriteThenRemove(files, a, env.extract.size);
  }

  /** A video whose inference raises leaves its extracted audio behind. */
  lemma VideoFailureKeepsExtractedAudio(files: map<string, nat>, locked: set<string>, videoFile: string,
                                        language: Option<string>, env: CallEnv)
    requires IsVideoFile(videoFile) && env.extract.Done?
    requires env.infer(InferCall(ExtractedPath(env.tempDir, videoFile), TranscribeParams(language))).InferRaised?
    ensures var r := TranscribeOutcome(files, locked, videoFile, language, env);
      r.0.Err? && r.1 == files[ExtractedPath(env.tempDir, videoFile) := env.extract.size]
  {
  }

  /** A file that is not a video is removed after its transcription exactly
      when its path matches the cleanup rule (and removing it is allowed),
      whoever made it: a user's "/tmp/notes_audio.wav" goes too. */
  lemma AudioFileRemovedByRule(files: map<string, nat>, locked: set<string>, audioFile: string,
                               language: Option<string>, env: CallEnv)
    requires !IsVideoFile(audioFile) && audioFile in files && audioFile !in locked
    requires env.infer(InferCall(audioFile, TranscribeParams(language))).Inferred?
    ensures var r := TranscribeOutcome(files, locked, audioFile, language, env);
      r.0.Ok? && (audioFile !in r.1 <==> SelfCleaned(audioFile, env.tempDir))
      && r.1 - {audioFile} == files - {audioFile}
  {
  }

  /** `tempfile.NamedTemporaryFile(suffix=".wav")` names are ".wav" files,
      never videos. */
  lemma TempWavIsNotVideo(dir: string, tok: string)
    requires ValidToken(tok)
    ensures !IsVideoFile(TempName(dir, tok, ".wav"))
  {
    TempWavExtension(dir, tok);
    WavIsNotVideo(TempName(dir, tok, ".wav"));
  }

  /** A temporary name lies under the temporary directory, so only the
      "_audio.wav" half of the cleanup rule can fail for it. */
  lemma TempWavUnderDir(dir: string, tok: string)
    requires ValidToken(tok)
    ensures SelfCleaned(TempName(dir, tok, ".wav"), dir) <==> Contains(TempName(dir, tok, ".wav"), "_audio.wav")
  {
    assert "tmp" + tok + ".wav" == ['t', 'm', 'p'] + tok + ".wav";
    JoinContainsDir(dir, "tmp" + tok + ".wav");
  }

  /** `transcribe_from_microphone` as written: record, save to a new
      temporary ".wav" file, transcribe it, then remove it outside any
      `finally`, so the file stays when anything raises; the removal raises
      in turn when `transcribe` already removed the file. */
  function MicrophoneOutcome(files: map<string, nat>, locked: set<string>, env: CallEnv)
    : (r: (Result<string, string>, map<string, nat>))
    ensures r.0.Ok? ==> env.tempFile.Created? && TempName(env.tempDir, env.tempFile.token, ".wav") !in r.1
    ensures env.tempFile.Created? && ValidToken(env.tempFile.token) ==>
      var t := TempName(env.tempDir, env.tempFile.token, ".wav");
      r.1 - {t} == files - {t}
  {
    match env.tempFile
    case TempRaised(m) => (Err(m), files)
    case Created(tok) =>
      var t := TempName(env.tempDir, tok, ".wav");
      match env.writeWav
      case Raised(m) =>
        WriteThenRemove(files, t, 0);
        (Err(m), files[t := 0])
      case Done(size) =>
        var run := TranscribeOutcome(files[t := size], locked, t, None, env);
        assert ValidToken(tok) ==> run.1 - {t} == files - {t} by {
          if ValidToken(tok) {
            TempWavIsNotVideo(env.tempDir, tok);
            WriteThenRemove(files, t, size);
          }
        }
        match run.0
        case Err(m) => (Err(m), run.1)
        case Ok((text, _)) =>
          var removed := Unlinked(run.1, locked, t);
          (if removed.0.Some? then Err(removed.0.value) else Ok(text), removed.1)
  }

  /** The same flow with the removal guarded by `os.path.exists`, as the
      final `os.remove` evidently meant. */
  function MicrophoneOutcomeGuarded(files: map<string, nat>, locked: set<string>, env: CallEnv)
    : (r: (Result<string, string>, map<string, nat>))
    ensures r.0.Ok? ==> env.tempFile.Created? && TempName(env.tempDir, env.tempFile.token, ".wav") !in r.1
    ensures env.tempFile.Created? && ValidToken(env.tempFile.token) ==>
      var t := TempName(env.tempDir, env.tempFile.token, ".wav");
      r.1 - {t} == files - {t}
  {
    match env.tempFile
    case TempRaised(m) => (Err(m), files)
    case Created(tok) =>
      var t := TempName(env.tempDir, tok, ".wav");
      match env.writeWav
      case Raised(m) =>
        WriteThenRemove(files, t, 0);
        (Err(m), files[t := 0])
      case Done(size) =>
        var run := TranscribeOutcome(files[t := size], locked, t, None, env);
        assert ValidToken(tok) ==> run.1 - {t} == files - {t} by {
          if ValidToken(tok) {
            TempWavIsNotVideo(env.tempDir, tok);
            WriteThenRemove(files, t, size);
          }
        }
        match run.0
        case Err(m) => (Err(m), run.1)
        case Ok((text, _)) =>
          var removed := if t in run.1 then Unlinked(run.1, locked, t) else (None, run.1);
          (if removed.0.Some? then Err(removed.0.value) else Ok(text), removed.1)
  }

  /** The recording is transcribed from its temporary file: what the
      microphone flow needs of the call. */
  lemma MicrophoneRun(files: map<string, nat>, locked: set<string>, env: CallEnv)
    requires env.tempFile.Created? && env.writeWav.Done?
    requires FreshTemp(files, locked, env.tempDir, env.tempFile.token, ".wav")
    ensures var t := TempName(env.tempDir, env.tempFile.token, ".wav");
      var run := TranscribeOutcome(files[t := env.writeWav.size], locked, t, None, env);
      match env.infer(InferCall(t, TranscribeParams(None)))
      case InferRaised(m) => run == (Err(m), files[t := env.writeWav.size])
      case Inferred(segments, info) =>
        run.0 == Ok((JoinedText(segments), Details(info.language, info.languageProbability, info.duration)))
        && run.1 == if Contains(t, "_audio.wav") then files else files[t := env.writeWav.size]
  {
    var t := TempName(env.tempDir, env.tempFile.token, ".wav");
    TempWavIsNotVideo(env.tempDir, env.tempFile.token);
    TempWavUnderDir(env.tempDir, env.tempFile.token);
    assert files[t := env.writeWav.size] - {t} == files;
  }

  /** A transcription that raises leaves the recording's temporary file. */
  lemma MicrophoneFailureLeaksRecording(files: map<string, nat>, locked: set<string>, env: CallEnv)
    requires env.tempFile.Created? && env.writeWav.Done?
    requires FreshTemp(files, locked, env.tempDir, env.tempFile.token, ".wav")
    requires env.infer(InferCall(TempName(env.tempDir, env.tempFile.token, ".wav"), TranscribeParams(None))).InferRaised?
    ensures var r := MicrophoneOutcome(files, locked, env);
      r.0.Err? && TempName(env.tempDir, env.tempFile.token, ".wav") in r.1
  {
    MicrophoneRun(files, locked, env);
  }

  /** As written: when the temporary name happens to contain "_audio.wav",
      `transcribe` removes the recording itself and the final `os.remove`
      raises FileNotFoundError, losing a transcript that succeeded. */
  lemma MicrophoneRemovesTwice(files: map<string, nat>, locked: set<string>, env: CallEnv)
    requires env.tempFile.Created? && env.writeWav.Done?
    requires FreshTemp(files, locked, env.tempDir, env.tempFile.token, ".wav")
    requires Contains(TempName(env.tempDir, env.tempFile.token, ".wav"), "_audio.wav")
    requires env.infer(InferCall(TempName(env.tempDir, env.tempFile.token, ".wav"), TranscribeParams(None))).Inferred?
    ensures MicrophoneOutcome(files, locked, env) == (Err(NotFoundError(TempName(env.tempDir, env.tempFile.token, ".wav"))), files)
  {
    MicrophoneRun(files, locked, env);
  }

  /** Such a name is one `tempfile` can draw: the token "xy_audio" in "/tmp"
      gives "/tmp/tmpxy_audio.wav". */
  lemma MicrophoneClashToken()
    ensures ValidToken("xy_audio")
    ensures TempName("/tmp", "xy_audio", ".wav") == "/tmp/tmpxy_audio.wav"
    ensures Contains(TempName("/tmp", "xy_audio", ".wav"), "_audio.wav")
  {
    assert DirPart("/tmp") == "/tmp/";
    assert "/tmp/" + ("tmp" + "xy_audio" + ".wav") == "/tmp/tmpxy_audio.wav";
    EndsWithAudioWav("/tmp/tmp", "xy");
    assert "/tmp/tmp" + ("xy" + "_audio.wav") == "/tmp/tmpxy_audio.wav";
  }

  /** Guarded: a transcription that succeeds is returned, and the recording
      is gone afterwards whichever of the two removed it; every other file
      is as before. */
  lemma MicrophoneGuardedSucceeds(files: map<string, nat>, locked: set<string>, env: CallEnv)
    requires env.tempFile.Created? && env.writeWav.Done?
    requires FreshTemp(files, locked, env.tempDir, env.tempFile.token, ".wav")
    requires env.infer(InferCall(TempName(env.tempDir, env.tempFile.token, ".wav"), TranscribeParams(None))).Inferred?
    ensures MicrophoneOutcomeGuarded(files, locked, env)
      == (Ok(JoinedText(env.infer(InferCall(TempName(env.tempDir, env.tempFile.token, ".wav"), TranscribeParams(None))).segments)),
          files)
  {
    var t := TempName(env.tempDir, env.tempFile.token, ".wav");
    var size := env.writeWav.size;
    MicrophoneRun(files, locked, env);
    var run := TranscribeOutcome(files[t := size], locked, t, None, env);
    if Contains(t, "_audio.wav") {
      assert run.1 == files && t !in run.1;
    } else {
      assert run.1 == files[t := size] && t in run.1;
      assert files[t := size] - {t} == files;
      assert Unlinked(run.1, locked, t) == (None, files);
    }
  }

  /** The legacy class: recording settings, the requested size and the
      loaded model. */
  class SpeechToText {
    const sampleRate: int
    const channels: int
    const modelSize: string
    var model: Option<nat>

    /** The fields `__init__` sets before loading. */
    constructor (modelSize: string)
      ensures this.modelSize == modelSize && sampleRate == SampleRate && channels == 1 && model.None?
    {
      this.modelSize := modelSize;
      sampleRate := SampleRate;
      channels := 1;
      model := None;
    }

    /** The loading part of `__init__`: a GPU attempt when forced and usable,
        returning at once on success, then the CPU in "int8". Returns the
        configuration that loaded, or the CPU load's exception. */
    method LoadModel(cudaAvailable: bool, forceGpu: bool, load: Loader) returns (r: Result<LoadRequest, string>)
      modifies this
      ensures match InitialLoad(modelSize, cudaAvailable, forceGpu, load)
        case Ok((req, h)) => r == Ok(req) && model == Some(h)
        case Err(m) => r == Err(m) && model == old(model)
    {
      if cudaAvailable && forceGpu {
        var gpu := DeviceRequest(modelSize, "cuda", "float16");
        match load(gpu) {
          case Loaded(h) =>
            model := Some(h);
            return Ok(gpu);
          case LoadRaised(_) =>
        }
      }
      var cpu := DeviceRequest(modelSize, "cpu", "int8");
      match load(cpu) {
        case Loaded(h) =>
          model := Some(h);
          r := Ok(cpu);
        case LoadRaised(e) =>
          r := Err(e);
      }
    }

    /** `extract_audio_from_video`: moviepy writes the video's audio to the
        derived path, or its exception is re-raised. */
    method ExtractAudioFromVideo(fs: FileSystem, videoFile: string, tempDir: string, extract: StepOutcome)
      returns (r: Result<string, string>)
      modifies fs
      ensures (r, fs.files) == ExtractOutcome(old(fs.files), tempDir, videoFile, extract)
    {
      var audioFile := Join(tempDir, SplitExt(NtBasename(videoFile)).0 + "_audio.wav");
      match extract {
        case Raised(m) =>
          r := Err(m);
        case Done(size) =>
          fs.Write(audioFile, size);
          r := Ok(audioFile);
      }
    }

    /** `transcribe(audio_file, language)`. */
    method Transcribe(fs: FileSystem, audioFile: string, language: Option<string>, env: CallEnv)
      returns (r: Result<(string, Details), string>)
      requires model.Some?
      modifies fs
      ensures (r, fs.files) == TranscribeOutcome(old(fs.files), fs.locked, audioFile, language, env)
    {
      var path := audioFile;
      if IsVideoFile(path) {
        var extracted := ExtractAudioFromVideo(fs, path, env.tempDir, env.extract);
        match extracted {
          case Err(m) =>
            return Err(m);
          case Ok(a) =>
            path := a;
        }
      }
      match env.infer(InferCall(path, TranscribeParams(language))) {
        case InferRaised(m) =>
          r := Err(m);
        case Inferred(segments, info) =>
          var transcription := JoinedText(segments);
          var details := Details(info.language, info.languageProbability, info.duration);
          if Contains(path, "_audio.wav") && Contains(path, env.tempDir) {
            // an OSError of the removal is swallowed
            var _ := fs.Unlink(path);
          }
          r := Ok((transcription, details));
      }
    }

    /** `transcribe_from_microphone`: the recording itself is the oracle's
        WAV write; the temporary file is created empty by the `with` block
        and then filled. */
    method TranscribeFromMicrophone(fs: FileSystem, env: CallEnv) returns (r: Result<string, string>)
      requires model.Some?
      modifies fs
      ensures (r, fs.files) == MicrophoneOutcome(old(fs.files), fs.locked, env)
    {
      match env.tempFile {
        case TempRaised(m) =>
          return Err(m);
        case Created(tok) =>
          var tempFilename := TempName(env.tempDir, tok, ".wav");
          match env.writeWav {
            case Raised(m) =>
              fs.Write(tempFilename, 0);
              return Err(m);
            case Done(size) =>
              fs.Write(tempFilename, size);
          }
          var transcribed := Transcribe(fs, tempFilename, None, env);
          match transcribed {
            case Err(m) =>
              return Err(m);
            case Ok((transcription, _)) =>
              var err := fs.Unlink(tempFilename);
              if err.Some? {
                return Err(err.value);
              }
              return Ok(transcription);
          }
      }
    }
  }
}
