/** The two upload handlers of the application's API mode: `/api/transcribe`
    saves the uploaded file under its own name in the temporary directory,
    `/api/transcribe-blob` saves a recording as "recorded_audio.wav" there;
    both transcribe it with the legacy class and answer with a status code
    and a JSON body. */
module Api {
  import opened Wrappers
  import opened PyPath
  import opened Oracles
  import opened Fs
  import opened App

  /** An uploaded file part: the name the client gave it and its size. */
  datatype Upload = Upload(filename: string, size: nat)

  /** What a handler reads of the request: the file parts by field name and
      the `language` form field. */
  datatype Request = Request(files: map<string, Upload>, language: Option<string>)

  /** `file.save(path)` and `os.path.getsize(path)`: done, or the exception. */
  datatype SaveOutcome = Saved | SaveRaised(message: string)

  /** The JSON body: `{'error': ...}`, `{'success': False, 'error': ...}` or
      `{'success': True, 'transcription': ..., 'details': ...}`. */
  datatype Body =
    | Rejected(error: string)
    | Failed(error: string)
    | Succeeded(transcription: string, details: Details)

  datatype Response = Response(status: nat, body: Body)

  /** A response is well formed: 200 with a transcript, 400 for a request
      without its file, 500 for every failure after that. */
  predicate StatusMatchesBody(r: Response)
  {
    (r.status == 200 <==> r.body.Succeeded?)
    && (r.status == 400 <==> r.body.Rejected?)
    && (r.status == 500 <==> r.body.Failed?)
  }

  /** The removal after a failed transcription: only when the file is still
      there, and a failed removal is swallowed. */
  function RemoveIfExists(files: map<string, nat>, locked: set<string>, p: string): (r: map<string, nat>)
    ensures p !in locked ==> p !in r
    ensures r - {p} == files - {p}
  {
    if p in files then Unlinked(files, locked, p).1 else files
  }

  /** `transcribe_api`: the response and the files afterwards. */
  function UploadOutcome(files: map<string, nat>, locked: set<string>, request: Request, save: SaveOutcome, env: CallEnv)
    : (r: (Response, map<string, nat>))
    ensures StatusMatchesBody(r.0)
    ensures r.0.status == 400 <==> "file" !in request.files || request.files["file"].filename == ""
    ensures r.0.status == 400 ==> r.1 == files
    ensures save.SaveRaised? ==> r.1 == files
    ensures save.SaveRaised? && r.0.status != 400 ==> r.0.body == Failed("保存文件失败: " + save.message)
    ensures "file" in request.files && request.files["file"].filename != "" && save.Saved? ==>
      var t := Join(env.tempDir, request.files["file"].filename);
      var run := TranscribeOutcome(files[t := request.files["file"].size], locked, t, request.language, env);
      (run.0.Ok? ==> r.0 == Response(200, Succeeded(run.0.value.0, run.0.value.1)))
      && (run.0.Err? ==> r.0 == Response(500, Failed(run.0.error)))
      && r.1 - {t} == run.1 - {t}
  {
    if "file" !in request.files then (Response(400, Rejected("No file part")), files)
    else
      var file := request.files["file"];
      if file.filename == "" then (Response(400, Rejected("No selected file")), files)
      else
        var t := Join(env.tempDir, file.filename);
        match save
        case SaveRaised(m) => (Response(500, Failed("保存文件失败: " + m)), files)
        case Saved =>
          var run := TranscribeOutcome(files[t := file.size], locked, t, request.language, env);
          match run.0
          case Ok((text, details)) => (Response(200, Succeeded(text, details)), Unlinked(run.1, locked, t).1)
          case Err(m) => (Response(500, Failed(m)), RemoveIfExists(run.1, locked, t))
  }

  /** `transcribe_blob`: the response and the files afterwards. The handler
      removes nothing on success: `transcribe` has done it. */
  function BlobOutcome(files: map<string, nat>, locked: set<string>, request: Request, save: SaveOutcome, env: CallEnv)
    : (r: (Response, map<string, nat>))
    ensures StatusMatchesBody(r.0)
    ensures r.0.status == 400 <==> "audio" !in request.files
    ensures r.0.status == 400 ==> r.1 == files
    ensures save.SaveRaised? ==> r.1 == files
    ensures save.SaveRaised? && r.0.status != 400 ==> r.0.body == Failed("保存音频失败: " + save.message)
    ensures "audio" in request.files && save.Saved? ==>
      var t := Join(env.tempDir, "recorded_audio.wav");
      var run := TranscribeOutcome(files[t := request.files["audio"].size], locked, t, request.language, env);
      (run.0.Ok? ==> r.0 == Response(200, Succeeded(run.0.value.0, run.0.value.1)) && r.1 == run.1)
      && (run.0.Err? ==> r.0 == Response(500, Failed(run.0.error)))
      && r.1 - {t} == run.1 - {t}
  {
    if "audio" !in request.files then (Response(400, Rejected("No audio data received")), files)
    else
      var t := Join(env.tempDir, "recorded_audio.wav");
      match save
      case SaveRaised(m) => (Response(500, Failed("保存音频失败: " + m)), files)
      case Saved =>
        var run := TranscribeOutcome(files[t := request.files["audio"].size], locked, t, request.language, env);
        match run.0
        case Ok((text, details)) => (Response(200, Succeeded(text, details)), run.1)
        case Err(m) => (Response(500, Failed(m)), RemoveIfExists(run.1, locked, t))
  }

  /** Once the upload is saved, its file is gone when the handler answers,
      whatever happened (unless removing it is not allowed). A name that is
      absolute is not joined under the temporary directory at all: the
      upload is written to, and then removed from, that very path. */
  lemma UploadNeverKeepsItsFile(files: map<string, nat>, locked: set<string>, request: Request, env: CallEnv)
    requires "file" in request.files && request.files["file"].filename != ""
    requires Join(env.tempDir, request.files["file"].filename) !in locked
    ensures Join(env.tempDir, request.files["file"].filename) !in UploadOutcome(files, locked, request, Saved, env).1
    ensures IsAbsolute(request.files["file"].filename) ==>
      Join(env.tempDir, request.files["file"].filename) == request.files["file"].filename
  {
    var file := request.files["file"];
    var t := Join(env.tempDir, file.filename);
    var run := TranscribeOutcome(files[t := file.size], locked, t, request.language, env);
    if run.0.Ok? {
      assert UploadOutcome(files, locked, request, Saved, env).1 == Unlinked(run.1, locked, t).1;
    }
  }

  /** The recording's path matches the cleanup rule of `transcribe` and is
      not a video. */
  lemma BlobPathIsSelfCleaned(tempDir: string)
    ensures SelfCleaned(Join(tempDir, "recorded_audio.wav"), tempDir)
    ensures !IsVideoFile(Join(tempDir, "recorded_audio.wav"))
  {
    assert "recorded" + "_audio.wav" == "recorded_audio.wav";
    EndsWithAudioWav(DirPart(tempDir), "recorded");
    JoinContainsDir(tempDir, "recorded_audio.wav");
    AudioWavExtension(DirPart(tempDir), "recorded");
    WavIsNotVideo(Join(tempDir, "recorded_audio.wav"));
  }

  /** The blob handler relies on `transcribe` to remove the recording: after
      a transcript, the recording is gone and every other file is as before;
      after a failure, the handler removes it itself. */
  lemma BlobNeverKeepsRecording(files: map<string, nat>, locked: set<string>, request: Request, env: CallEnv)
    requires "audio" in request.files
    requires Join(env.tempDir, "recorded_audio.wav") !in locked
    ensures var t := Join(env.tempDir, "recorded_audio.wav");
      var r := BlobOutcome(files, locked, request, Saved, env);
      t !in r.1 && r.1 - {t} == files - {t}
    ensures var t := Join(env.tempDir, "recorded_audio.wav");
      var out := env.infer(InferCall(t, TranscribeParams(request.language)));
      out.Inferred? ==>
        BlobOutcome(files, locked, request, Saved, env).0
          == Response(200, Succeeded(JoinedText(out.segments),
                                     Details(out.info.language, out.info.languageProbability, out.info.duration)))
  {
    var t := Join(env.tempDir, "recorded_audio.wav");
    var size := request.files["audio"].size;
    BlobPathIsSelfCleaned(env.tempDir);
    WriteThenRemove(files, t, size);
  }

  /** A video upload whose inference raises leaves the audio extracted from
      it in the temporary directory: the handler removes only the upload. */
  lemma VideoUploadFailureLeaksAudio(files: map<string, nat>, locked: set<string>, request: Request, env: CallEnv)
    requires "file" in request.files && request.files["file"].filename != ""
    requires IsVideoFile(Join(env.tempDir, request.files["file"].filename)) && env.extract.Done?
    requires var a := ExtractedPath(env.tempDir, Join(env.tempDir, request.files["file"].filename));
      env.infer(InferCall(a, TranscribeParams(request.language))).InferRaised?
    ensures var t := Join(env.tempDir, request.files["file"].filename);
      var a := ExtractedPath(env.tempDir, t);
      var r := UploadOutcome(files, locked, request, Saved, env);
      r.0.status == 500 && a in r.1 && r.1[a] == env.extract.size
  {
    var file := request.files["file"];
    var t := Join(env.tempDir, file.filename);
    var a := ExtractedPath(env.tempDir, t);
    ExtractedPathIsNotVideo(env.tempDir, t);
    assert a != t;
    VideoFailureKeepsExtractedAudio(files[t := file.size], locked, t, request.language, env);
    var run := TranscribeOutcome(files[t := file.size], locked, t, request.language, env);
    assert UploadOutcome(files, locked, request, Saved, env) == (Response(500, Failed(run.0.error)), RemoveIfExists(run.1, locked, t));
    KeptBesides(RemoveIfExists(run.1, locked, t), run.1, t, a);
  }

  /** Two file maps that agree outside `t` agree on any other path. */
  lemma KeptBesides(r: map<string, nat>, s: map<string, nat>, t: string, a: string)
    requires r - {t} == s - {t} && a != t && a in s
    ensures a in r && r[a] == s[a]
  {
    assert a in s - {t};
  }

  /** `transcribe_api` on the legacy engine. */
  method TranscribeUpload(stt: SpeechToText, fs: FileSystem, request: Request, save: SaveOutcome, env: CallEnv)
    returns (response: Response)
    requires stt.model.Some?
    modifies fs
    ensures (response, fs.files) == UploadOutcome(old(fs.files), fs.locked, request, save, env)
  {
    if "file" !in request.files {
      return Response(400, Rejected("No file part"));
    }
    var file := request.files["file"];
    if file.filename == "" {
      return Response(400, Rejected("No selected file"));
    }
    var tempPath := Join(env.tempDir, file.filename);
    match save {
      case SaveRaised(m) =>
        return Response(500, Failed("保存文件失败: " + m));
      case Saved =>
        fs.Write(tempPath, file.size);
    }
    var transcribed := stt.Transcribe(fs, tempPath, request.language, env);
    match transcribed {
      case Ok((transcription, details)) =>
        // a failed removal is only logged
        var _ := fs.Unlink(tempPath);
        return Response(200, Succeeded(transcription, details));
      case Err(m) =>
        if fs.Exists(tempPath) {
          var _ := fs.Unlink(tempPath);
        }
        return Response(500, Failed(m));
    }
  }

  /** `transcribe_blob` on the legacy engine. */
  method TranscribeBlob(stt: SpeechToText, fs: FileSystem, request: Request, save: SaveOutcome, env: CallEnv)
    returns (response: Response)
    requires stt.model.Some?
    modifies fs
    ensures (response, fs.files) == BlobOutcome(old(fs.files), fs.locked, request, save, env)
  {
    if "audio" !in request.files {
      return Response(400, Rejected("No audio data received"));
    }
    var tempPath := Join(env.tempDir, "recorded_audio.wav");
    match save {
      case SaveRaised(m) =>
        return Response(500, Failed("保存音频失败: " + m));
      case Saved =>
        fs.Write(tempPath, request.files["audio"].size);
    }
    var transcribed := stt.Transcribe(fs, tempPath, request.language, env);
    match transcribed {
      case Ok((transcription, details)) =>
        return Response(200, Succeeded(transcription, details));
      case Err(m) =>
        if fs.Exists(tempPath) {
          var _ := fs.Unlink(tempPath);
        }
        return Response(500, Failed(m));
    }
  }
}
