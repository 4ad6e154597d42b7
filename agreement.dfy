/** How the copies of the same decisions across the code relate: the lists
    of model names, the lists of video extensions, and the classifiers built
    on them. */
module Agreement {
  import opened PyStr
  import opened PyPath
  import Utils
  import Engine
  import App

  /** `get_available_whisper_models` and both `get_available_models` list the
      same seven names in the same order. */
  lemma ModelListsAgree()
    ensures Utils.GetAvailableWhisperModels() == Engine.GetAvailableModels()
    ensures App.GetAvailableModels() == Engine.GetAvailableModels()
  {
  }

  /** The engine's video list is the utilities' list, in another order; the
      legacy list is that list without ".webm". */
  lemma VideoListsAgree()
    ensures forall e :: e in Engine.VideoFormats <==> e in Utils.SupportedVideoFormats
    ensures forall e :: e in App.VideoExtensions <==> e in Utils.SupportedVideoFormats && e != ".webm"
  {
  }

  /** The legacy class and `is_video_file` read the same extension, so they
      disagree exactly on the paths whose extension is ".webm" in some case. */
  lemma LegacyMissesOnlyWebm(p: string)
    ensures App.IsVideoFile(p) ==> Utils.IsVideoFile(p)
    ensures (Utils.IsVideoFile(p) && !App.IsVideoFile(p)) <==> Utils.Extension(p) == ".webm"
  {
    VideoListsAgree();
  }

  /** "clip.webm" is a video to the core and not to the legacy class. */
  lemma WebmSplitsTheClassifiers()
    ensures Utils.IsVideoFile("clip.webm") && !App.IsVideoFile("clip.webm")
  {
    WebmExtension();
    LegacyMissesOnlyWebm("clip.webm");
  }

  lemma WebmExtension()
    ensures Utils.Extension("clip.webm") == ".webm"
  {
    ClipWebmShape();
    Utils.ClassifyByExtension("", "clip", ".webm");
    WebmIsLowerCase();
  }

  lemma ClipWebmShape()
    ensures '/' !in "clip" && HasNonDot("clip")
    ensures '.' !in ".webm"[1..] && '/' !in ".webm" && ".webm"[0] == '.'
    ensures "" + "clip" + ".webm" == "clip.webm"
  {
    assert "clip"[0] == 'c';
  }

  lemma WebmIsLowerCase()
    ensures Lower(".webm") == ".webm"
  {
    var l := Lower(".webm");
    assert l[0] == '.' && l[1] == 'w' && l[2] == 'e' && l[3] == 'b' && l[4] == 'm';
  }
}
