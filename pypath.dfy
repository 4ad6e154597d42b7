/** Python's path arithmetic as the transcription code uses it, on POSIX:
    `os.path.join`, `os.path.splitext`, `pathlib.Path(p).name/.suffix/.stem`,
    `ntpath.basename`, and the names `tempfile.NamedTemporaryFile` picks. */
module PyPath {
  import opened PyStr

  predicate IsAbsolute(b: string)
  {
    |b| > 0 && b[0] == '/'
  }

  /** The directory prefix `os.path.join` puts in front of a relative name. */
  function DirPart(a: string): (d: string)
    ensures d == "" || d[|d| - 1] == '/'
  {
    if a == "" || a[|a| - 1] == '/' then a else a + "/"
  }

  /** `os.path.join(a, b)` (posixpath): an absolute `b` discards `a`; a
      relative `b` follows `a` and at most one added '/'. */
  function Join(a: string, b: string): (r: string)
    ensures IsAbsolute(b) ==> r == b
    ensures !IsAbsolute(b) ==> IsPrefix(a, r) && |r| - |b| in {|a|, |a| + 1} && r[|r| - |b|..] == b
  {
    if IsAbsolute(b) then b else DirPart(a) + b
  }

  /** A relative name joined under a directory keeps the directory text, so
      the substring test `dir in path` holds of the result. */
  lemma JoinContainsDir(a: string, b: string)
    requires !IsAbsolute(b)
    ensures Contains(Join(a, b), a)
  {
    var p := Join(a, b);
    assert p[0..|a|] == a;
    assert OccursAt(p, a, 0);
  }

  /** A relative name joined under a directory ends the result. */
  lemma JoinEndsWithName(a: string, b: string)
    requires !IsAbsolute(b)
    ensures Contains(Join(a, b), b)
  {
    var p := Join(a, b);
    var d := DirPart(a);
    assert p[|d|..|d| + |b|] == b;
    assert OccursAt(p, b, |d|);
  }

  predicate HasNonDot(s: string)
  {
    exists i :: 0 <= i < |s| && s[i] != '.'
  }

  /** Where `os.path.splitext(p)` (genericpath._splitext with sep '/' and
      extsep '.') cuts: at the last dot of the final component, when some
      character before that dot in the component is not a dot; otherwise at
      the end. */
  function ExtIndex(p: string): (k: int)
    ensures 0 <= k <= |p|
    ensures k < |p| ==> p[k] == '.' && '.' !in p[k + 1..] && '/' !in p[k..]
  {
    var sepIndex := RFind(p, '/');
    var dotIndex := RFind(p, '.');
    if dotIndex > sepIndex && HasNonDot(p[sepIndex + 1..dotIndex]) then
      ExtensionShape(p, sepIndex, dotIndex);
      dotIndex
    else
      |p|
  }

  /** What follows the last dot of the final component is one dot and then
      neither a dot nor a '/'. */
  lemma ExtensionShape(p: string, sepIndex: int, dotIndex: int)
    requires sepIndex == RFind(p, '/') && dotIndex == RFind(p, '.')
    requires dotIndex > sepIndex
    ensures '.' !in p[dotIndex + 1..] && '/' !in p[dotIndex..]
  {
    NoneAfter(p, '.', dotIndex);
    NoneAfter(p, '/', dotIndex - 1);
  }

  /** `os.path.splitext(p)`: the root and the extension. */
  function SplitExt(p: string): (r: (string, string))
    ensures r.0 + r.1 == p
    ensures r.1 != "" ==> r.1[0] == '.' && '.' !in r.1[1..] && '/' !in r.1
  {
    var k := ExtIndex(p);
    assert k < |p| ==> p[k..][1..] == p[k + 1..];
    (p[..k], p[k..])
  }

  /** A name after a directory prefix is cut where the name alone is cut. */
  lemma ExtIndexAfterDir(d: string, b: string)
    requires '/' !in b
    requires d == "" || d[|d| - 1] == '/'
    ensures ExtIndex(d + b) == |d| + ExtIndex(b)
  {
    var p := d + b;
    RFindConcat(d, b, '/');
    RFindConcat(d, b, '.');
    assert RFind(b, '/') == -1;
    assert RFind(p, '/') == |d| - 1 by {
      if d != "" { RFindUnique(d, '/', |d| - 1); }
    }
    if RFind(b, '.') >= 0 {
      ExtIndexAfterDirDot(d, b);
    } else {
      assert RFind(p, '.') == RFind(d, '.');
    }
  }

  lemma ExtIndexAfterDirDot(d: string, b: string)
    requires RFind(b, '/') == -1 && RFind(b, '.') >= 0
    requires RFind(d + b, '/') == |d| - 1 && RFind(d + b, '.') == |d| + RFind(b, '.')
    ensures ExtIndex(d + b) == |d| + ExtIndex(b)
  {
    var p := d + b;
    var q := RFind(b, '.');
    assert p[|d|..|d| + q] == b[0..q];
    if HasNonDot(b[0..q]) {
      assert ExtIndex(b) == q;
      assert ExtIndex(p) == |d| + q;
    } else {
      assert ExtIndex(b) == |b|;
      assert ExtIndex(p) == |p|;
    }
  }

  /** Splitting a name that follows a directory prefix splits only the name. */
  lemma SplitExtAfterDir(d: string, b: string)
    requires '/' !in b
    requires d == "" || d[|d| - 1] == '/'
    ensures SplitExt(d + b) == (d + SplitExt(b).0, SplitExt(b).1)
  {
    ExtIndexAfterDir(d, b);
    SlicesOfConcat(d, b, ExtIndex(b));
  }

  lemma SlicesOfConcat(d: string, b: string, k: int)
    requires 0 <= k <= |b|
    ensures (d + b)[..|d| + k] == d + b[..k] && (d + b)[|d| + k..] == b[k..]
  {
  }

  /** The cut of `stem + ext` falls between them. */
  lemma ExtIndexOfName(stem: string, ext: string)
    requires '/' !in stem && HasNonDot(stem)
    requires |ext| > 0 && ext[0] == '.' && '.' !in ext[1..] && '/' !in ext
    ensures ExtIndex(stem + ext) == |stem|
  {
    var p := stem + ext;
    RFindConcat(stem, ext, '/');
    RFindConcat(stem, ext, '.');
    assert RFind(ext, '.') == 0 by {
      forall j | 0 < j < |ext| ensures ext[j] != '.' { assert ext[j] == ext[1..][j - 1]; }
      RFindUnique(ext, '.', 0);
    }
    assert p[0..|stem|] == stem;
  }

  /** Round trip: a name whose stem has a character other than '.' splits back
      into that stem and its dot-extension. */
  lemma SplitExtOfName(stem: string, ext: string)
    requires '/' !in stem && HasNonDot(stem)
    requires |ext| > 0 && ext[0] == '.' && '.' !in ext[1..] && '/' !in ext
    ensures SplitExt(stem + ext) == (stem, ext)
  {
    ExtIndexOfName(stem, ext);
    var p := stem + ext;
    assert p[..|stem|] == stem && p[|stem|..] == ext;
  }

  /** A name made only of dots before its last dot has no extension: the
      "leading-dot" rule that makes ".mp4" an extension-less name. */
  lemma SplitExtDotsOnlyStem(stem: string, ext: string)
    requires forall i :: 0 <= i < |stem| ==> stem[i] == '.'
    requires |ext| > 0 && ext[0] == '.' && '.' !in ext[1..] && '/' !in ext
    ensures SplitExt(stem + ext) == (stem + ext, "")
  {
    var p := stem + ext;
    RFindConcat(stem, ext, '/');
    RFindConcat(stem, ext, '.');
    assert RFind(stem, '/') == -1;
    assert RFind(ext, '.') == 0 by {
      forall j | 0 < j < |ext| ensures ext[j] != '.' { assert ext[j] == ext[1..][j - 1]; }
      RFindUnique(ext, '.', 0);
    }
    assert p[0..|stem|] == stem;
    assert ExtIndex(p) == |p|;
    assert p[..|p|] == p;
  }

  /** `pathlib.PurePosixPath(p).name`: the last component once empty and "."
      components are dropped ("a.mp4/" and "a.mp4/." both name "a.mp4"). */
  function PathName(p: string): (r: string)
    ensures '/' !in r && r != "."
    decreases |p|
  {
    var s := RFind(p, '/');
    var last := p[s + 1..];
    NoneAfter(p, '/', s);
    if last != "" && last != "." then last
    else if s < 0 then ""
    else PathName(p[..s])
  }

  /** `Path(p).suffix`: from the last dot of the name, unless that dot is the
      first or the last character of the name. */
  function PathSuffix(p: string): string
  {
    var n := PathName(p);
    var i := RFind(n, '.');
    if 0 < i < |n| - 1 then n[i..] else ""
  }

  /** `Path(p).stem`: the name without its suffix. */
  function PathStem(p: string): (r: string)
    ensures r + PathSuffix(p) == PathName(p)
    ensures '/' !in r
  {
    var n := PathName(p);
    var i := RFind(n, '.');
    if 0 < i < |n| - 1 then
      assert forall k :: 0 <= k < i ==> n[..i][k] == n[k];
      n[..i]
    else n
  }

  /** The name of a joined path is the joined component. */
  lemma PathNameOfJoin(a: string, b: string)
    requires '/' !in b && b != "" && b != "."
    ensures PathName(Join(a, b)) == b
  {
    var d := DirPart(a);
    var p := d + b;
    assert Join(a, b) == p;
    RFindConcat(d, b, '/');
    assert RFind(b, '/') == -1;
    assert RFind(p, '/') == |d| - 1 by {
      if d != "" { RFindUnique(d, '/', |d| - 1); }
    }
    assert p[|d|..] == b;
  }

  /** The suffix of a name `stem + ext` whose stem is not empty and whose
      extension is one dot followed by at least one character. */
  lemma PathSuffixOfName(a: string, stem: string, ext: string)
    requires stem != "" && '/' !in stem
    requires |ext| > 1 && ext[0] == '.' && '.' !in ext[1..] && '/' !in ext
    ensures PathSuffix(Join(a, stem + ext)) == ext
  {
    var n := stem + ext;
    PathNameOfJoin(a, n);
    RFindConcat(stem, ext, '.');
    assert RFind(ext, '.') == 0 by {
      forall j | 0 < j < |ext| ensures ext[j] != '.' { assert ext[j] == ext[1..][j - 1]; }
      RFindUnique(ext, '.', 0);
    }
    assert n[|stem|..] == ext;
  }

  /** The drive letter that `ntpath.splitdrive` removes ("C:clip.mp4"). */
  function StripDrive(p: string): string
  {
    if |p| >= 2 && p[1] == ':' && p[0] != '/' && p[0] != '\\' then p[2..] else p
  }

  /** `ntpath.basename(p)`: what follows the last '/' or '\' after the drive. */
  function NtBasename(p: string): (r: string)
    ensures '/' !in r && '\\' !in r
    ensures exists k :: (0 <= k <= |StripDrive(p)| && r == StripDrive(p)[k..]
                         && (k == 0 || StripDrive(p)[k - 1] == '/' || StripDrive(p)[k - 1] == '\\'))
  {
    var rest := StripDrive(p);
    var slash := RFind(rest, '/');
    var back := RFind(rest, '\\');
    var i := if slash > back then slash else back;
    NoneAfter(rest, '/', i);
    NoneAfter(rest, '\\', i);
    assert i + 1 == 0 || rest[i] == '/' || rest[i] == '\\';
    rest[i + 1..]
  }

  /** A character of the random part of a `tempfile` name: the alphabet
      "abcdefghijklmnopqrstuvwxyz0123456789_". */
  predicate TokenChar(c: char)
  {
    'a' <= c <= 'z' || '0' <= c <= '9' || c == '_'
  }

  /** The eight random characters `tempfile` draws for a name. */
  predicate ValidToken(tok: string)
  {
    |tok| == 8 && forall i :: 0 <= i < |tok| ==> TokenChar(tok[i])
  }

  /** The path `tempfile.NamedTemporaryFile(suffix=suffix, dir=dir)` creates:
      the prefix "tmp", the random part, then the suffix. */
  function TempName(dir: string, tok: string, suffix: string): string
  {
    Join(dir, "tmp" + tok + suffix)
  }

  /** A temporary WAV file's name is relative, so it lies under the
      directory: the directory part, the stem "tmp" + token, then ".wav". */
  lemma TempWavShape(dir: string, tok: string)
    requires ValidToken(tok)
    ensures '/' !in "tmp" + tok && '.' !in "tmp" + tok && HasNonDot("tmp" + tok)
    ensures TempName(dir, tok, ".wav") == DirPart(dir) + ("tmp" + tok) + ".wav"
  {
    TempStemShape(tok);
    var stem := "tmp" + tok;
    assert stem[0] == 't';
    assert !IsAbsolute(stem + ".wav") by { assert (stem + ".wav")[0] == 't'; }
  }

  /** A temporary WAV file has the extension ".wav" under `splitext`. */
  lemma TempWavExtension(dir: string, tok: string)
    requires ValidToken(tok)
    ensures SplitExt(TempName(dir, tok, ".wav")).1 == ".wav"
  {
    TempWavShape(dir, tok);
    SplitExtOfPath(DirPart(dir), "tmp" + tok, ".wav");
  }

  /** A temporary WAV file has the suffix ".wav". */
  lemma TempWavSuffix(dir: string, tok: string)
    requires ValidToken(tok)
    ensures PathSuffix(TempName(dir, tok, ".wav")) == ".wav"
  {
    TempStemShape(tok);
    assert "tmp" + tok + ".wav" == ("tmp" + tok) + ".wav";
    PathSuffixOfName(dir, "tmp" + tok, ".wav");
  }

  /** ".wav" has no upper-case letter. */
  lemma WavIsLowerCase()
    ensures Lower(".wav") == ".wav"
  {
    var l := Lower(".wav");
    assert l[0] == '.' && l[1] == 'w' && l[2] == 'a' && l[3] == 'v';
  }

  lemma TempStemShape(tok: string)
    requires ValidToken(tok)
    ensures '/' !in "tmp" + tok && '.' !in "tmp" + tok
  {
    forall i | 0 <= i < |tok| ensures tok[i] != '/' && tok[i] != '.' {
      assert TokenChar(tok[i]);
    }
    assert '/' !in "tmp" && '.' !in "tmp";
  }

  /** Lower-casing keeps the dots where they are. */
  lemma HasNonDotLower(x: string)
    ensures HasNonDot(Lower(x)) == HasNonDot(x)
  {
    var l := Lower(x);
    if HasNonDot(x) {
      var i :| 0 <= i < |x| && x[i] != '.';
      assert l[i] == LowerChar(x[i]);
    }
    if HasNonDot(l) {
      var i :| 0 <= i < |l| && l[i] != '.';
      assert l[i] == LowerChar(x[i]);
    }
  }

  /** Lower-casing a path lower-cases its extension and moves nothing:
      '.' and '/' are not letters. */
  lemma SplitExtLower(p: string)
    ensures SplitExt(Lower(p)).1 == Lower(SplitExt(p).1)
  {
    ExtIndexLower(p);
    var k := ExtIndex(p);
    LowerSlice(p, k, |p|);
    assert p[k..|p|] == p[k..] && Lower(p)[k..|p|] == Lower(p)[k..];
  }

  lemma ExtIndexLower(p: string)
    ensures ExtIndex(Lower(p)) == ExtIndex(p)
  {
    var l := Lower(p);
    RFindLower(p, '/');
    RFindLower(p, '.');
    var s := RFind(p, '/');
    var d := RFind(p, '.');
    if d > s {
      LowerSlice(p, s + 1, d);
      HasNonDotLower(p[s + 1..d]);
    }
  }

  /** The extension of a path whose final component is `stem + ext`. */
  lemma SplitExtOfPath(d: string, stem: string, ext: string)
    requires d == "" || d[|d| - 1] == '/'
    requires '/' !in stem && HasNonDot(stem)
    requires |ext| > 0 && ext[0] == '.' && '.' !in ext[1..] && '/' !in ext
    ensures SplitExt(d + stem + ext) == (d + stem, ext)
  {
    var n := stem + ext;
    SplitExtOfName(stem, ext);
    assert '/' !in n;
    SplitExtAfterDir(d, n);
    assert d + stem + ext == d + n;
  }
}
