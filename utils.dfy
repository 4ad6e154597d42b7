/** backend/core/utils.py: file classification by extension, the FFmpeg
    video-to-audio conversion, temporary-file cleanup and the model list. */
module Utils {
  import opened Wrappers
  import opened PyStr
  import opened PyPath
  import opened Oracles
  import opened Fs

  const SupportedVideoFormats: seq<string> := [".mp4", ".mkv", ".avi", ".mov", ".wmv", ".flv", ".webm"]

  const SupportedAudioFormats: seq<string> := [".wav", ".mp3", ".flac", ".ogg", ".m4a"]

  /** `os.path.splitext(p)[1].lower()`. */
  function Extension(p: string): string
  {
    Lower(SplitExt(p).1)
  }

  /** `is_video_file`: a video path has a real extension, a dot followed
      by three or four characters. */
  predicate IsVideoFile(p: string)
    ensures IsVideoFile(p) ==> 4 <= |SplitExt(p).1| <= 5 && SplitExt(p).1[0] == '.'
  {
    Extension(p) in SupportedVideoFormats
  }

  /** `is_audio_file`: an audio path has a real extension, a dot followed
      by three or four characters. */
  predicate IsAudioFile(p: string)
    ensures IsAudioFile(p) ==> 4 <= |SplitExt(p).1| <= 5 && SplitExt(p).1[0] == '.'
  {
    Extension(p) in SupportedAudioFormats
  }

  /** The two extension lists are disjoint: no path is both. */
  lemma NeverBothVideoAndAudio(p: string)
    ensures !(IsVideoFile(p) && IsAudioFile(p))
  {
  }

  /** A path `d + stem + ext` is classified by `ext` alone, whatever its
      case, as long as the stem has a character other than '.'. */
  lemma ClassifyByExtension(d: string, stem: string, ext: string)
    requires d == "" || d[|d| - 1] == '/'
    requires '/' !in stem && HasNonDot(stem)
    requires |ext| > 0 && ext[0] == '.' && '.' !in ext[1..] && '/' !in ext
    ensures Extension(d + stem + ext) == Lower(ext)
  {
    SplitExtOfPath(d, stem, ext);
  }

  /** A final component whose text before its last dot is only dots (".mp4",
      "..wav") has no extension, so it is neither video nor audio. */
  lemma DotsOnlyNameIsNeither(d: string, stem: string, ext: string)
    requires d == "" || d[|d| - 1] == '/'
    requires forall i :: 0 <= i < |stem| ==> stem[i] == '.'
    requires |ext| > 0 && ext[0] == '.' && '.' !in ext[1..] && '/' !in ext
    ensures !IsVideoFile(d + stem + ext) && !IsAudioFile(d + stem + ext)
  {
    SplitExtDotsOnlyStem(stem, ext);
    assert '/' !in stem + ext;
    SplitExtAfterDir(d, stem + ext);
    assert d + stem + ext == d + (stem + ext);
  }

  /** Classification ignores case. */
  lemma ClassifyIgnoresCase(p: string)
    ensures IsVideoFile(Lower(p)) == IsVideoFile(p)
    ensures IsAudioFile(Lower(p)) == IsAudioFile(p)
  {
    SplitExtLower(p);
    LowerIdempotent(SplitExt(p).1);
  }

  /** The KELVIN SIGN lower-cases to 'k', so "clip.m\U{212A}v" is an MKV
      video. */
  lemma KelvinSignVideo()
    ensures IsVideoFile("clip.m\U{212A}v")
  {
    assert "clip"[0] != '.';
    ClassifyByExtension("", "clip", ".m\U{212A}v");
    assert "" + "clip" + ".m\U{212A}v" == "clip.m\U{212A}v";
    var l := Lower(".m\U{212A}v");
    assert l[0] == '.' && l[1] == 'm' && l[2] == 'k' && l[3] == 'v';
    assert l == ".mkv";
  }

  /** The FFmpeg subprocess: it wrote an output of some size, or it raised
      (CalledProcessError, or any other exception such as a missing binary;
      both except branches of the source do the same). */
  datatype RunOutcome = RunOk(outputSize: nat) | RunFailed(message: string)

  /** The world's answers during one conversion. */
  datatype ConvertEnv = ConvertEnv(
    ffmpegAvailable: bool,
    tempDir: string,
    tempFile: TempOutcome,
    run: RunOutcome)

  /** `str(e)` of the UnboundLocalError the except branch raises when it reads
      `audio_path` before the temporary file could be created. */
  const UnboundAudioPath := "cannot access local variable 'audio_path' where it is not associated with a value"

  /** The temporary output is a fresh file of this process. */
  predicate ConvertPre(files: map<string, nat>, locked: set<string>, outputFormat: string, env: ConvertEnv)
  {
    env.tempFile.Created? ==> FreshTemp(files, locked, env.tempDir, env.tempFile.token, "." + outputFormat)
  }

  /** The temporary output path of a conversion. */
  function ConvertOutputPath(outputFormat: string, env: ConvertEnv): string
    requires env.tempFile.Created?
  {
    TempName(env.tempDir, env.tempFile.token, "." + outputFormat)
  }

  /** `convert_video_to_audio` as written: its result (or the exception it
      raises) and the files afterwards. */
  function ConvertAsWritten(files: map<string, nat>, locked: set<string>, outputFormat: string, env: ConvertEnv)
    : (r: (Result<(string, bool), string>, map<string, nat>))
    requires ConvertPre(files, locked, outputFormat, env)
    ensures r.0.Ok? && r.0.value.1 ==> r.0.value.0 != "" && r.0.value.0 in r.1 && r.1[r.0.value.0] > 0
    ensures r.0.Ok? && !r.0.value.1 ==> r.0.value.0 == ""
    ensures r.0.Ok? && r.0.value.1 <==>
      env.ffmpegAvailable && env.tempFile.Created? && env.run.RunOk? && env.run.outputSize > 0
    ensures !env.ffmpegAvailable ==> r == (Ok(("", false)), files)
    ensures env.run.RunFailed? ==> r.1 == files
    ensures env.ffmpegAvailable && env.tempFile.Created? && env.run == RunOk(0) ==>
      r.1 == files[ConvertOutputPath(outputFormat, env) := 0]
    ensures r.0.Err? <==> env.ffmpegAvailable && env.tempFile.TempRaised?
  {
    if !env.ffmpegAvailable then (Ok(("", false)), files)
    else
      match env.tempFile
      case TempRaised(_) => (Err(UnboundAudioPath), files)
      case Created(tok) =>
        var t := ConvertOutputPath(outputFormat, env);
        match env.run
        case RunOk(size) =>
          if size > 0 then (Ok((t, true)), files[t := size])
          else (Ok(("", false)), files[t := 0])
        case RunFailed(_) =>
          assert files[t := 0] - {t} == files;
          (Ok(("", false)), files)
  }

  /** `convert_video_to_audio(video_path, output_format)`, step by step. */
  method ConvertVideoToAudio(fs: FileSystem, videoPath: string, outputFormat: string, env: ConvertEnv)
    returns (r: Result<(string, bool), string>)
    requires ConvertPre(fs.files, fs.locked, outputFormat, env)
    modifies fs
    ensures (r, fs.files) == ConvertAsWritten(old(fs.files), fs.locked, outputFormat, env)
  {
    if !env.ffmpegAvailable {
      return Ok(("", false));
    }
    var audioPath: string;
    match env.tempFile {
      case TempRaised(_) =>
        return Err(UnboundAudioPath);
      case Created(tok) =>
        audioPath := TempName(env.tempDir, tok, "." + outputFormat);
        fs.Write(audioPath, 0);
    }
    match env.run {
      case RunOk(size) =>
        fs.Write(audioPath, size);
        assert fs.files == old(fs.files)[audioPath := size];
        if fs.Exists(audioPath) && fs.files[audioPath] > 0 {
          return Ok((audioPath, true));
        }
        return Ok(("", false));
      case RunFailed(_) =>
        if fs.Exists(audioPath) {
          // the file was created by this call, so unlinking it succeeds
          var err := fs.Unlink(audioPath);
          assert err.None?;
          assert old(fs.files)[audioPath := 0] - {audioPath} == old(fs.files);
        }
        return Ok(("", false));
    }
  }

  /** The evidently intended conversion: a temporary file that cannot be
      created is one more failure reported as `("", False)`. */
  function ConvertCorrected(files: map<string, nat>, locked: set<string>, outputFormat: string, env: ConvertEnv)
    : (r: (Result<(string, bool), string>, map<string, nat>))
    requires ConvertPre(files, locked, outputFormat, env)
    ensures r.0.Ok?
    ensures r.0.value.1 <==> r.0.value.0 != ""
    ensures r.0.value.1 ==> r.0.value.0 in r.1 && r.1[r.0.value.0] > 0
    ensures r.0.value.1 <==>
      env.ffmpegAvailable && env.tempFile.Created? && env.run.RunOk? && env.run.outputSize > 0
    ensures !r.0.value.1 && !(env.tempFile.Created? && env.run == RunOk(0)) ==> r.1 == files
  {
    if env.ffmpegAvailable && env.tempFile.TempRaised? then (Ok(("", false)), files)
    else ConvertAsWritten(files, locked, outputFormat, env)
  }

  /** As written, a temporary file that cannot be created makes the except
      branch raise instead of returning `("", False)`. */
  lemma ConvertRaisesWithoutTempFile(files: map<string, nat>, locked: set<string>, outputFormat: string, env: ConvertEnv)
    requires env.ffmpegAvailable && env.tempFile.TempRaised?
    ensures ConvertAsWritten(files, locked, outputFormat, env).0 == Err(UnboundAudioPath)
    ensures ConvertCorrected(files, locked, outputFormat, env).0 == Ok(("", false))
  {
  }

  /** `cleanup_temp_files(file_list)`: removes every listed, non-empty,
      existing path it is allowed to remove, swallows the errors of the
      others, and touches nothing that is not listed. */
  method CleanupTempFiles(fs: FileSystem, fileList: seq<string>)
    modifies fs
    ensures forall p :: p in fs.files <==>
      p in old(fs.files) && (p !in fileList || p == "" || p in fs.locked)
    ensures forall p :: p in fs.files ==> fs.files[p] == old(fs.files)[p]
  {
    var i := 0;
    while i < |fileList|
      invariant 0 <= i <= |fileList|
      invariant forall p :: p in fs.files <==>
        p in old(fs.files) && (p !in fileList[..i] || p == "" || p in fs.locked)
      invariant forall p :: p in fs.files ==> fs.files[p] == old(fs.files)[p]
    {
      var filePath := fileList[i];
      if filePath != "" && fs.Exists(filePath) {
        var err := fs.Unlink(filePath);
        // an error is logged and the loop goes on
      }
      assert fileList[..i + 1] == fileList[..i] + [filePath];
      i := i + 1;
    }
    assert fileList[..i] == fileList;
  }

  /** `get_available_whisper_models`. */
  function GetAvailableWhisperModels(): (r: seq<string>)
    ensures "medium" in r && "tiny" in r
    ensures forall i, j :: 0 <= i < j < |r| ==> r[i] != r[j]
  {
    ["tiny", "base", "small", "medium", "large-v1", "large-v2", "large-v3"]
  }
}
