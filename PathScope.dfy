/** The PATH handling of run_all.py: `prepend_path` puts a toolchain's
    directory in front of the search path for the length of one run. */
module PathScope {
  /** `os.pathsep` on the POSIX hosts the scripts run on. */
  const PathSep: char := ':'

  /** The directories of a search path, in search order (`PATH.split(':')`). */
  function Entries(path: string): (dirs: seq<string>)
    ensures |dirs| >= 1
    decreases |path|
  {
    if path == [] then [""]
    else if path[0] == PathSep then [""] + Entries(path[1..])
    else var rest := Entries(path[1..]); [[path[0]] + rest[0]] + rest[1..]
  }

  /** The search path with `dir` in front. */
  function Prepended(dir: string, path: string): string {
    dir + [PathSep] + path
  }

  /** A directory without separators becomes the first entry of the search
      path, ahead of every old entry, which keep their order. */
  lemma {:induction false} PrependedEntries(dir: string, path: string)
    requires PathSep !in dir
    ensures Entries(Prepended(dir, path)) == [dir] + Entries(path)
    decreases |dir|
  {
    if dir == [] {
      assert Prepended(dir, path)[1..] == path;
    } else {
      assert Prepended(dir, path)[1..] == Prepended(dir[1..], path);
      PrependedEntries(dir[1..], path);
      assert [dir[0]] + dir[1..] == dir;
    }
  }

  /** The old search path can be read back from the new one. */
  lemma PrependedRestores(dir: string, path: string)
    ensures Prepended(dir, path)[|dir| + 1..] == path
  {
  }

  /** The process environment, of which only PATH is modelled. */
  class Environment {
    var path: string

    constructor (path0: string)
      ensures path == path0
    {
      path := path0;
    }

    /** `prepend_path` (run_all.py lines 1298-1308) once the toolchain's
        install directory is known: PATH gains it in front, and the old value
        is handed back for the restore. */
    method PrependPath(installDir: string) returns (oldPath: string)
      modifies this
      ensures oldPath == old(path)
      ensures path == Prepended(installDir, old(path))
    {
      oldPath := path;
      path := installDir + [PathSep] + path;
    }

    /** `env['PATH'] = oldpath` (run_all.py line 1497). */
    method Restore(oldPath: string)
      modifies this
      ensures path == oldPath
    {
      path := oldPath;
    }
  }
}
