/** The file system the code touches, as the set of existing paths with
    their sizes. `locked` holds the paths whose removal fails with a
    permission error. */
module Fs {
  import opened Wrappers
  import opened PyPath

  /** `str(e)` of the FileNotFoundError `os.remove(p)` raises. */
  function NotFoundError(p: string): string
  {
    "[Errno 2] No such file or directory: '" + p + "'"
  }

  /** `str(e)` of the PermissionError `os.remove(p)` raises. */
  function PermissionError(p: string): string
  {
    "[Errno 13] Permission denied: '" + p + "'"
  }

  /** `os.remove(p)` / `os.unlink(p)`: the error it raises, if any, and the
      files afterwards. */
  function Unlinked(files: map<string, nat>, locked: set<string>, p: string): (r: (Option<string>, map<string, nat>))
    ensures r.0.None? <==> p in files && p !in locked
    ensures r.0.None? ==> r.1 == files - {p}
    ensures r.0.Some? ==> r.1 == files
    ensures r.1 - {p} == files - {p}
  {
    if p !in files then (Some(NotFoundError(p)), files)
    else if p in locked then (Some(PermissionError(p)), files)
    else (None, files - {p})
  }

  /** A temporary file `tempfile` is about to create: a name it may draw,
      not yet on disk, and owned by this process so it can be removed. */
  predicate FreshTemp(files: map<string, nat>, locked: set<string>, dir: string, tok: string, suffix: string)
  {
    ValidToken(tok) && TempName(dir, tok, suffix) !in files && TempName(dir, tok, suffix) !in locked
  }

  /** Removing a file just written leaves what removing the old one would. */
  lemma WriteThenRemove(files: map<string, nat>, p: string, size: nat)
    ensures files[p := size] - {p} == files - {p}
  {
  }

  /** Removing a path that does not exist changes nothing. */
  lemma RemoveAbsent(files: map<string, nat>, p: string)
    requires p !in files
    ensures files - {p} == files
  {
  }

  class FileSystem {
    var files: map<string, nat>
    const locked: set<string>

    constructor (files: map<string, nat>, locked: set<string>)
      ensures this.files == files && this.locked == locked
    {
      this.files := files;
      this.locked := locked;
    }

    /** `os.path.exists(p)`. */
    predicate Exists(p: string)
      reads this
    {
      p in files
    }

    /** `os.remove(p)`: returns the text of the error it raised, if any. */
    method Unlink(p: string) returns (err: Option<string>)
      modifies this
      ensures (err, files) == Unlinked(old(files), locked, p)
    {
      if p !in files {
        err := Some(NotFoundError(p));
      } else if p in locked {
        err := Some(PermissionError(p));
      } else {
        err := None;
        files := files - {p};
      }
    }

    /** Creates `p`, or overwrites it, with `size` bytes. */
    method Write(p: string, size: nat)
      modifies this
      ensures files == old(files)[p := size]
    {
      files := files[p := size];
    }
  }
}
