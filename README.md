# STT_shinai speech-to-text core, modelled in Dafny

STT_shinai transcribes speech with a faster-whisper model. It accepts audio files, video files, arrays of samples and microphone recordings, and it serves an HTTP API. This project models the deterministic decision logic around the model:

- **`STTEngine`** (backend/core/engine.py):
  - the constructor defaults;
  - `_load_model`, which resolves the device and compute precision, searches an ordered list of fallback configurations, falls back to the "tiny" model as a last resort, and otherwise raises a RuntimeError that lists every failure;
  - `transcribe`, which merges parameters, writes arrays to a temporary WAV file, extracts the audio of videos, joins the segments and cleans up in `finally`.
- **The utilities** (backend/core/utils.py):
  - classification by extension;
  - the FFmpeg video-to-audio conversion;
  - temporary-file cleanup;
  - the list of models.
- **The legacy `SpeechToText` class and the two upload handlers** (backend/app.py):
  - the simpler GPU/CPU choice;
  - a video list of its own;
  - the name of the extracted audio;
  - the substring cleanup rule of `transcribe`;
  - the microphone flow;
  - the responses and file cleanup of `/api/transcribe` and `/api/transcribe-blob`.

## How the model is built

Libraries the code only calls appear as *oracles*: values or functions passed in as parameters.

- **Model construction.** `Loader` maps a `LoadRequest` (the keyword arguments of `WhisperModel(...)`) to `Loaded(handle)` or `LoadRaised(message)`.
- **Inference.** `Inferrer` maps a path and a parameter dictionary to segments and info, or to an exception.
- **Other side effects.** The lazy `import moviepy.editor` of the engine, the moviepy/FFmpeg extraction, the `soundfile` write, `tempfile`'s random name and the CUDA probe are the fields of `CallEnv`, `ConvertEnv` and plain boolean parameters.

The file system is a map from existing paths to sizes (`Fs.FileSystem`).

- `os.remove` fails with the text of FileNotFoundError on a missing path.
- It fails with PermissionError on a path in `locked`.

The Python standard-library pieces the decisions rest on are written out in `PyStr` and `PyPath`:

- `str.lower`, the substring test `in`, `str.join` and `str.split`;
- `posixpath.join` and `posixpath.splitext`, including its leading-dots rule;
- `pathlib` `name`/`suffix`/`stem` and `ntpath.basename`;
- the `tmp` + 8 characters + suffix names of `tempfile`.

Each operation is modelled in the form the source has:

- **Classes.** `STTEngine`, `SpeechToText` and `FileSystem` are classes whose methods update their fields.
- **Loops.** `_load_model` and `cleanup_temp_files` are methods with loops.
- **Specification functions.** Most state-changing methods are proved equal to a specification function: both `Transcribe` methods, `PrepareAudio`, `ConvertVideoToAudio`, the legacy `ExtractAudioFromVideo` and `LoadModel`, the microphone flow and both handlers. Their lemmas then state what the source promises about `TranscribeOutcome`, `ConvertAsWritten`, `MicrophoneOutcome`, `UploadOutcome` and `BlobOutcome`.
- **Other contracts.** `STTEngine.LoadModel` is tied to the predicate `LoadReported` rather than to a function. `CleanupTempFiles`, `STTEngine.ExtractAudioFromVideo` and the `FileSystem` methods state their new state directly in their `ensures`.

## Model

| member | source | states |
|---|---|---|
| `PyStr.LowerChar` | backend/core/utils.py:164 | a character lower-cases to an ASCII letter only if it is one already, an ASCII capital or the KELVIN SIGN; any other character is kept |
| `PyStr.Lower` | backend/core/utils.py:164 | `str.lower()` maps each character in place by `LowerChar` (see Left out for the characters it keeps) |
| `PyStr.JoinWithContains` | backend/core/engine.py:249 | every string of a `sep.join(xs)` occurs in the result, whatever the strings contain |
| `PyStr.Contains` | backend/app.py:235 | the substring test `sub in s` holds exactly when `sub` occurs at some index of `s` |
| `PyStr.SplitJoin` | backend/core/engine.py:249 | splitting a `c`-joined list of fields that contain no `c` gives the fields back |
| `PyPath.Join` | backend/core/engine.py:284 | `os.path.join(a, b)` is `b` when `b` is absolute; otherwise it starts with `a`, then at most one added '/', then `b` |
| `PyPath.SplitExt` | backend/core/utils.py:163 | `splitext` cuts the path in two, and a non-empty extension is one dot followed by no dot and no separator |
| `PyPath.SplitExtOfName` | backend/core/utils.py:163 | a name `stem + ext` whose stem has a character other than '.' splits back into `(stem, ext)` |
| `PyPath.SplitExtDotsOnlyStem` | backend/core/utils.py:177 | a name made only of dots before its last dot (".mp4", "..wav") has no extension |
| `PyPath.SplitExtLower` | backend/core/utils.py:164 | lower-casing a path and then taking its extension gives the lower-cased extension |
| `PyPath.PathStem` | backend/core/engine.py:283 | `Path(p).stem` followed by `Path(p).suffix` is `Path(p).name`, and the stem has no '/' |
| `PyPath.PathSuffixOfName` | backend/core/engine.py:274 | a path joined from a directory and `stem + ext` has the suffix `ext` |
| `PyPath.NtBasename` | backend/app.py:186 | `ntpath.basename` returns the part of the drive-less path after its last '/' or '\\' (all of it when there is none): a suffix that starts at the beginning or just after a separator and holds neither separator |
| `PyPath.JoinContainsDir` | backend/app.py:187 | joining a relative name under a directory keeps the directory's text as a substring |
| `PyPath.TempWavExtension` | backend/app.py:258 | a `NamedTemporaryFile(suffix=".wav")` name has the `splitext` extension ".wav" |
| `PyPath.TempWavSuffix` | backend/core/engine.py:232 | a `NamedTemporaryFile(suffix=".wav")` name has the `Path` suffix ".wav" |
| `Oracles.JoinedText` | backend/core/engine.py:249 | the joined transcript contains every segment's text, and is empty without segments |
| `Oracles.JoinedTextKeepsSegments` | backend/core/engine.py:249 | the transcript of segments without spaces splits back into the segment texts, in order: joining loses and reorders nothing |
| `Fs.Unlinked` | backend/app.py:267 | `os.remove` succeeds exactly on an existing path it may remove, and then removes only that path; otherwise it raises and changes nothing; either way no other path changes |
| `Fs.FileSystem.Unlink` | backend/core/utils.py:191 | the removal changes the files as `Unlinked` says and returns its error |
| `Utils.IsVideoFile` | backend/core/utils.py:153-164 | a video path has a real extension: a dot and three or four characters |
| `Utils.IsAudioFile` | backend/core/utils.py:167-178 | an audio path has a real extension: a dot and three or four characters |
| `Utils.NeverBothVideoAndAudio` | backend/core/utils.py:153-178 | no path is both a video and an audio file |
| `Utils.ClassifyByExtension` | backend/core/utils.py:153-164 | a path's class is decided by the lower-cased text after the last dot of its final component, so "clip.MP4" is a video |
| `Utils.DotsOnlyNameIsNeither` | backend/core/utils.py:163-178 | a final component like ".mp4" is neither a video nor an audio file |
| `Utils.ClassifyIgnoresCase` | backend/core/utils.py:153-178 | lower-casing a path does not change whether it is a video or an audio file |
| `Utils.KelvinSignVideo` | backend/core/utils.py:163-164 | "clip.m\u212Av", whose extension holds the KELVIN SIGN, is an MKV video, as `str.lower()` makes it |
| `Utils.ConvertAsWritten` | backend/core/utils.py:40-94 | `(path, True)` exactly when FFmpeg is available, the temporary file was created, and FFmpeg wrote a non-empty file that is then on disk; `("", False)` otherwise; without FFmpeg nothing is created; after an FFmpeg failure the files are as before; an empty output stays on disk; an exception escapes only when the temporary file cannot be created |
| `Utils.ConvertVideoToAudio` | backend/core/utils.py:40-94 | the step-by-step conversion returns, and leaves on disk, what `ConvertAsWritten` says |
| `Utils.ConvertCorrected` | backend/core/utils.py:56-94 | with the missing case handled, the conversion never raises and `(path, True)` comes with a non-empty file on disk |
| `Utils.ConvertRaisesWithoutTempFile` | backend/core/utils.py:56-94 | as written, a failure to create the temporary file raises UnboundLocalError; corrected, it returns `("", False)` |
| `Utils.CleanupTempFiles` | backend/core/utils.py:181-194 | afterwards a path exists exactly when it existed and is unlisted, empty, or not removable; no size changes and nothing raises |
| `Utils.GetAvailableWhisperModels` | backend/core/utils.py:197-207 | the list holds "tiny" and "medium" and no name twice |
| `Engine.StringOr` | backend/core/engine.py:60 | `download_root or default` is one of its two operands, a given non-empty root wins, and the result is empty only when both are |
| `Engine.CpuThreadsDefault` | backend/core/engine.py:61 | `cpu_threads or os.cpu_count() or 4` takes the first of the three that is not None or 0, so it is never 0 |
| `Engine.ResolveDevice` | backend/core/engine.py:76-77 | a given device is kept; otherwise the device is "cuda" exactly when `use_gpu` is set and the CUDA probe succeeds, and "cpu" otherwise |
| `Engine.ResolveComputeType` | backend/core/engine.py:80-85 | a given compute type is kept; otherwise "float16" on "cuda", and off it "int8" exactly for medium/large-v1/large-v2/large-v3 and "int8_float16" for every other size |
| `Engine.FallbackConfigs` | backend/core/engine.py:113-128 | the fallback list always ends in cpu/int8, and every entry stays on the device or moves to the CPU in an 8-bit type |
| `Engine.ConfigRequest` | backend/core/engine.py:95-102 | `cpu_threads` is passed exactly on the CPU, and `download_root` always |
| `Engine.FallbackAttempts` | backend/core/engine.py:131-144 | one fallback attempt per configuration, in order |
| `Engine.Attempts` | backend/core/engine.py:91-171 | the attempts in order: the first one, the fallbacks of its device, then tiny/cpu/int8 exactly when the size is not "tiny" |
| `Engine.FirstLoaded` | backend/core/engine.py:88-156 | the first attempt that loads, with every earlier attempt failed; none exactly when every attempt fails |
| `Engine.FailureLog` | backend/core/engine.py:89-175 | `error_messages` holds one message per failed attempt before the first success, in attempt order, and covers all of them when nothing loads |
| `Engine.LoggedOneMore` | backend/core/engine.py:107-110 | appending the message of the next failed attempt keeps the log exact |
| `Engine.FirstLoadedAt` | backend/core/engine.py:104-106 | an attempt that loads after a run of logged failures is the first success |
| `Engine.AllFailedLog` | backend/core/engine.py:174-175 | a log that covers every attempt means nothing loaded, and it is the full failure log |
| `Engine.ReportLoaded` | backend/core/engine.py:144-152 | a success after logged failures is what the load reports |
| `Engine.ReportFailed` | backend/core/engine.py:173-175 | a log that covers every attempt is what the load reports |
| `Engine.MergedParams` | backend/core/engine.py:216-225 | the merged keys are the defaults' plus the caller's; a caller's value wins; every other key keeps its default (beam_size 3, vad_filter True, …); language is the argument unless it is falsy, else the engine's |
| `Engine.IsVideo` | backend/core/engine.py:272-275 | a video path has a `Path` suffix of a dot and three or four characters |
| `Engine.ExtractedAudioPath` | backend/core/engine.py:282-284 | the extracted audio's file name is the video's stem followed by "_audio.wav", whatever the directory |
| `Engine.RunOnPath` | backend/core/engine.py:239-246 | a path that is not a video changes no file; a video changes at most its extracted audio |
| `Engine.TranscribeOutcome` | backend/core/engine.py:198-270 | a path input changes at most the extracted audio, and none when it is not a video; after an array input the temporary WAV file is gone |
| `Engine.WavIsNotVideo` | backend/core/engine.py:272-275 | a path with the suffix ".wav" is not a video |
| `Engine.ExtractedAudioIsNotVideo` | backend/core/engine.py:282-284 | the extracted audio has the suffix ".wav", so it is never taken for a video in turn |
| `Engine.ExtractedAudioSuffix` | backend/core/engine.py:284 | `<stem>_audio.wav` joined under any directory has the suffix ".wav" |
| `Engine.ArrayInputLeavesNoFile` | backend/core/engine.py:228-270 | an array input leaves the files exactly as they were on every exit path, and on a successful write the model reads the temporary WAV file |
| `Engine.ArrayWritten` | backend/core/engine.py:231-235 | a written array is transcribed from its temporary file, which `finally` then removes |
| `Engine.ArrayWriteFailed` | backend/core/engine.py:232-234 | a failed `sf.write` raises its exception, and `finally` still removes the temporary file |
| `Engine.TempWavIsNotVideo` | backend/core/engine.py:232-240 | the temporary WAV file is never treated as a video |
| `Engine.MissingMoviepyIsNotWrapped` | backend/core/engine.py:280-294 | without moviepy a video fails with the ImportError text itself, not wrapped in the RuntimeError, and no file changes |
| `Engine.VideoInputLeavesExtractedAudio` | backend/core/engine.py:239-246 | a video is replaced by its extracted audio, which the model reads and which stays on disk whatever inference does |
| `Engine.AudioPathTouchesNoFile` | backend/core/engine.py:236-246 | a path that is not a video is read as it is, and no file changes |
| `Engine.TranscriptIsJoinedSegments` | backend/core/engine.py:246-261 | a successful result is the segments joined by spaces, with the info's language and the engine's model size and device |
| `Engine.CpuInt8IsAlwaysTried` | backend/core/engine.py:113-128 | the attempt just before the tiny one is always cpu/int8 for the requested size |
| `Engine.ThreadsOnlyOnCpu` | backend/core/engine.py:95-102 | `cpu_threads` reaches the library exactly for the CPU attempts of the requested size, never for the tiny model |
| `Engine.GpuFailureFallsBackToCpu` | backend/core/engine.py:117-122 | when every CUDA configuration fails and cpu/int8 loads, the engine ends on the CPU after three logged failures |
| `Engine.LoadErrorListsEveryAttempt` | backend/core/engine.py:158-175 | when nothing loads, a size other than "tiny" has five messages on "cuda" and four elsewhere, the last being the tiny failure |
| `Engine.OnlyTinyLoads` | backend/core/engine.py:136-162 | a loader that accepts only the tiny request ends on "tiny" with one logged failure per other attempt |
| `Engine.STTEngine.constructor` | backend/core/engine.py:56-62 | the fields get the arguments, with the download-root and thread-count defaults, and no model yet |
| `Engine.STTEngine.LoadModel` | backend/core/engine.py:71-175 | the first configuration that loads becomes the engine's model, size, device and compute type; when none loads, a RuntimeError holds the exact failure log, the model is untouched and the resolved device and compute type are kept |
| `Engine.STTEngine.ExtractAudioFromVideo` | backend/core/engine.py:277-294 | a failed moviepy import escapes as it is; otherwise the audio is written to `<tempdir>/<stem>_audio.wav` and that path is returned, or the failure is re-raised as a RuntimeError; no file changes on either failure |
| `Engine.STTEngine.Transcribe` | backend/core/engine.py:198-270 | the result and the files afterwards are those of `TranscribeOutcome` on the merged parameters and the engine's configuration |
| `Engine.STTEngine.PrepareAudio` | backend/core/engine.py:228-237 | an array goes to a fresh removable temporary WAV file, which is then the path to read; a path is used as it is |
| `Engine.GetAvailableModels` | backend/core/engine.py:340-342 | the list holds "tiny", every size that defaults to "int8", and no name twice |
| `App.GetAvailableModels` | backend/app.py:106-113 | seven names, from "tiny" to "large-v3" |
| `App.InitialLoad` | backend/app.py:34-61 | the model that loads is cuda/float16 or cpu/int8; an exception can only be that of the CPU load |
| `App.GpuOnlyWhenForced` | backend/app.py:38-61 | the GPU runs the model exactly when CUDA is usable, `force_gpu` is set and the GPU load succeeds; the constructor raises exactly when that is not so and the CPU load fails |
| `App.IsVideoFile` | backend/app.py:150-167 | a legacy video path has a `splitext` extension of a dot and exactly three characters |
| `App.WavIsNotVideo` | backend/app.py:150-167 | a path with the extension ".wav" is not a video |
| `App.ExtractedPath` | backend/app.py:185-187 | the extracted audio is the temporary directory, then the video's base name without its extension, then "_audio.wav": the name is never absolute, so the directory is never discarded |
| `App.SelfCleaned` | backend/app.py:235 | a path passing the cleanup rule is at least as long as "_audio.wav" and as the directory name; with an empty directory name only the "_audio.wav" test remains |
| `App.ExtractedPathIsSelfCleaned` | backend/app.py:235 | the extracted audio always matches the cleanup rule of `transcribe` |
| `App.ExtractedPathIsNotVideo` | backend/app.py:187 | the extracted audio has the extension ".wav" and is never taken for a video |
| `App.ExtractOutcome` | backend/app.py:169-197 | on success the derived path is returned and is now on disk, and only it changed; on failure nothing changed |
| `App.TranscribeOutcome` | backend/app.py:199-242 | a non-video file is the only path that may change; a video changes at most its extracted audio; a failure on a non-video changes nothing |
| `App.VideoSuccessRemovesExtractedAudio` | backend/app.py:212-242 | a video whose audio is transcribed yields that audio's transcript, and the extracted file is gone afterwards |
| `App.VideoFailureKeepsExtractedAudio` | backend/app.py:213-219 | a video whose inference raises leaves its extracted audio on disk |
| `App.AudioFileRemovedByRule` | backend/app.py:234-240 | after a transcription, a non-video file is removed exactly when its path contains "_audio.wav" and the temporary directory's name, whoever made it |
| `App.TempWavIsNotVideo` | backend/app.py:258-264 | the microphone's temporary WAV file is never treated as a video |
| `App.TempWavUnderDir` | backend/app.py:258-259 | a temporary name always contains the temporary directory, so only the "_audio.wav" half of the rule can fail for it |
| `App.MicrophoneOutcome` | backend/app.py:244-269 | a returned transcript means the recording's file is gone; for a name `tempfile` can draw, no other path changes |
| `App.MicrophoneOutcomeGuarded` | backend/app.py:244-269 | with the removal guarded, the same two properties hold |
| `App.MicrophoneRun` | backend/app.py:258-264 | the recording is transcribed from its temporary file, which `transcribe` removes exactly when its name contains "_audio.wav" |
| `App.MicrophoneFailureLeaksRecording` | backend/app.py:263-267 | a transcription that raises leaves the recording's temporary file on disk |
| `App.MicrophoneRemovesTwice` | backend/app.py:264-267 | as written, a temporary name containing "_audio.wav" turns a successful transcription into FileNotFoundError |
| `App.MicrophoneClashToken` | backend/app.py:258-259 | "/tmp/tmpxy_audio.wav" is a name `tempfile` can draw, and it contains "_audio.wav" |
| `App.MicrophoneGuardedSucceeds` | backend/app.py:244-269 | with the removal guarded, a successful transcription is returned and the files end as they began |
| `App.SpeechToText.constructor` | backend/app.py:27-30 | sample rate 16000, one channel, the requested size and no model yet |
| `App.SpeechToText.LoadModel` | backend/app.py:34-61 | the model and the returned configuration are those of `InitialLoad`; on its exception the model is untouched |
| `App.SpeechToText.ExtractAudioFromVideo` | backend/app.py:169-197 | the result and the files afterwards are those of `ExtractOutcome` |
| `App.SpeechToText.Transcribe` | backend/app.py:199-242 | the result and the files afterwards are those of `TranscribeOutcome` |
| `App.SpeechToText.TranscribeFromMicrophone` | backend/app.py:244-269 | the result and the files afterwards are those of `MicrophoneOutcome` |
| `Api.RemoveIfExists` | backend/app.py:434-440 | the guarded removal removes the path when allowed and touches no other file |
| `Api.UploadOutcome` | backend/app.py:371-445 | 200 exactly with a transcript, 400 exactly when the "file" part or its name is missing, 500 exactly for a failure; a 400 or a failed save changes no file and a failed save answers with its message; once saved, a transcript answers 200 with the text and details, an exception answers 500 with its text, and the handler itself touches no file but the upload |
| `Api.BlobOutcome` | backend/app.py:447-508 | 400 exactly when the "audio" part is missing; otherwise the same status discipline, messages and file behaviour for the recording, and on success the files are those `transcribe` left |
| `Api.UploadNeverKeepsItsFile` | backend/app.py:390-445 | once saved, the upload is gone when the handler answers, whatever happened; an absolute file name is used as the path itself |
| `Api.BlobPathIsSelfCleaned` | backend/app.py:459-460 | "recorded_audio.wav" under the temporary directory matches the cleanup rule and is not a video |
| `Api.BlobNeverKeepsRecording` | backend/app.py:447-508 | the recording is gone afterwards and every other file is as before; a successful inference answers 200 with the joined segments |
| `Api.VideoUploadFailureLeaksAudio` | backend/app.py:413-445 | a video upload whose inference raises answers 500 and leaves the extracted audio on disk |
| `Api.TranscribeUpload` | backend/app.py:371-445 | the response and the files afterwards are those of `UploadOutcome` |
| `Api.TranscribeBlob` | backend/app.py:447-508 | the response and the files afterwards are those of `BlobOutcome` |
| `Agreement.ModelListsAgree` | backend/core/engine.py:340-342 | the three model lists are equal, in the same order |
| `Agreement.VideoListsAgree` | backend/core/engine.py:29 | the engine's and the utilities' video lists hold the same extensions; the legacy list is that list without ".webm" |
| `Agreement.LegacyMissesOnlyWebm` | backend/app.py:150-167 | the legacy classifier accepts only videos the core accepts, and it rejects one of those exactly when its extension is ".webm" in some case |
| `Agreement.WebmSplitsTheClassifiers` | backend/app.py:165 | "clip.webm" is a video to the core and not to the legacy class |

## Left out

- **Foreign libraries.** Model construction and inference (faster-whisper), moviepy, the FFmpeg subprocess, `soundfile` and `sounddevice` appear only as oracle outcomes. The loader is a function of the request, so the same request always gives the same outcome.
- **The size keyword.** The first and fallback attempts pass the size as the keyword `model_size`, while the tiny attempt passes it positionally. Whether the library accepts that keyword belongs to the loader oracle; `Engine.OnlyTinyLoads` states what follows if it does not.
- **Probes.** The CUDA probes (`_is_cuda_available`, `is_cuda_available`) and `check_ffmpeg_available` are boolean parameters. `_get_gpu_info` and both `get_status` methods are not modelled: they only report.
- **`__init__` split.** Dafny constructors cannot raise, so each `__init__` is split into a constructor, which sets the fields, and `LoadModel`, which loads and may fail.
- **Floating-point code.** `normalize_audio` and `read_audio_file` are floating-point resampling and averaging, and are not modelled.
- **Sample arrays.** Arrays appear only as the opaque input of an array transcription. `record_audio`, `save_audio`, `save_audio_to_file` and `transcribe_microphone` of the engine are recording followed by the modelled calls.
- **`segments_count`.** It is not modelled, because it is counted after the segment iterable has been consumed.
- **`all_languages_probs`.** It is carried through unchanged.
- **Flask plumbing.** Flask routing, CORS, argparse, the 100 MB request limit, the health and models endpoints, the interactive `main` loop, and logging and print output are not modelled.
- **Saved-file check.** The 500 "saved file does not exist" branches of both handlers are not modelled. They follow a save that succeeded, and in this model a successful save always leaves the file on disk.
- **Failed writes.** A save, extraction or WAV write that raises is taken to leave no file behind, except the empty file `NamedTemporaryFile` has already created.
- `PyStr.Lower`: only the ASCII capitals and the KELVIN SIGN are mapped. Every other cased character outside ASCII is kept, and U+0130, which Python lower-cases to two characters, keeps the length. This does not change any classification: in Python and in the model alike, such a character lower-cases to text that still holds a character outside ASCII, and every extension list is ASCII.
- **Temporary files.** A temporary file is taken to be new and removable by its owner (`FreshTemp`), as `tempfile` creates it. UNC prefixes in `ntpath.basename` are not modelled; drive letters are.
- **`Engine.STTEngine.Transcribe`.** Its contract requires a loaded model, because `_load_model` either loads one or raises out of `__init__`. For an array input it also requires that the temporary file is fresh, so the removal in `finally` cannot fail.
- **`App.SpeechToText.Transcribe`.** Its contract requires a loaded model, because `__init__` either loads one or raises.
- **Other files.** tests/test_model.py and backend/core/__init__.py are not part of this model.

## Findings

| source | as written | input that shows it | evidently intended | confidence | as-written member | corrected member |
|---|---|---|---|---|---|---|
| backend/app.py:258-267 | `transcribe_from_microphone` calls `os.remove` unguarded after `transcribe`, whose cleanup rule (app.py:235-240) already removes any temporary path containing "_audio.wav" | the temporary name "/tmp/tmpxy_audio.wav" (token "xy_audio" in "/tmp") with inference succeeding: the transcript is lost to FileNotFoundError | remove the recording only if it still exists, so a successful transcription is returned | medium, not executed | `App.MicrophoneRemovesTwice` | `App.MicrophoneGuardedSucceeds` |
| backend/core/utils.py:56-94 | if `NamedTemporaryFile` raises, the `except Exception` branch reads the unbound `audio_path` | FFmpeg available and the temporary file cannot be created: UnboundLocalError escapes instead of `("", False)` | report that failure as `("", False)` like every other | high, not executed | `Utils.ConvertRaisesWithoutTempFile` | `Utils.ConvertCorrected` |
