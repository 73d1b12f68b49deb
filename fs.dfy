/** An abstract filesystem: the state that the sync engine reads and changes.

    A path is a plain string and the filesystem is a finite map from paths to
    nodes. `os.Stat` succeeds exactly on the paths in the map; every other
    failure of the operating system (a refused open, a full disk, ...) comes
    from a `Faults` oracle supplied by the caller. */
module Fs {

  newtype byte = x: int | 0 <= x < 256

  datatype Option<T> = None | Some(value: T)

  /** What `os.Stat` can tell about a path. Every kind of node carries a
      modification time, since `ModTime()` is defined for all of them. A
      symbolic link is folded into the kind of the node it resolves to. */
  datatype Node =
    | Regular(content: seq<byte>, mtime: int)
    | Directory(mtime: int)
    | Special(mtime: int)   // device

  type Snapshot = map<string, Node>

  /** The failures the engine reports; each names the path it is about. */
  datatype Error =
    | PathNotFound(path: string)     // os.Stat on an absent path
    | NotRegularFile(path: string)   // copy source that is not a plain file
    | NotDirectory(path: string)     // a directory copy source, or an ancestor met by os.Stat, that is not a directory
    | IoFailure(path: string)        // open, create, write, read-dir or mkdir failed

  datatype Outcome = Pass | Fail(error: Error)

  datatype Result<T> = Ok(value: T) | Err(error: Error)

  /** The oracle for failures other than a missing path, keyed by the path of
      the call that fails: `os.Open` of a source, `os.Create` of a
      destination, `io.Copy` into a destination (with the number of bytes
      written before it fails), `os.ReadDir` and `os.Mkdir`. */
  datatype Faults = Faults(
    open: set<string>,
    create: set<string>,
    copy: map<string, nat>,
    readDir: set<string>,
    mkdir: set<string>)

  const NoFaults := Faults({}, {}, map[], {}, {})

  /** Whether a proper ancestor of `p` exists and is not a directory: the
      lookup of `p` then stops at that ancestor with ENOTDIR, not ENOENT. */
  predicate UnderNonDirectory(fs: Snapshot, p: string)
  {
    exists i :: 0 < i < |p| && p[i] == '/' && p[..i] in fs && !fs[p[..i]].Directory?
  }

  /** `os.Stat`: the node at `path`; for an absent path, the not-a-directory
      error when the lookup runs into a non-directory, else the not-exist
      error. */
  function Stat(fs: Snapshot, path: string): (r: Result<Node>)
    ensures r.Ok? <==> path in fs
    ensures r.Ok? ==> r.value == fs[path]
    ensures r.Err? ==> r.error.path == path
    ensures IsNotExist(r) <==> path !in fs && !UnderNonDirectory(fs, path)
    ensures path !in fs && UnderNonDirectory(fs, path) ==> r == Err(NotDirectory(path))
  {
    if path in fs then Ok(fs[path])
    else if UnderNonDirectory(fs, path) then Err(NotDirectory(path))
    else Err(PathNotFound(path))
  }

  /** `os.IsNotExist` applied to the error half of a stat: true for ENOENT
      only. */
  predicate IsNotExist(stat: Result<Node>)
  {
    stat.Err? && stat.error.PathNotFound?
  }

  /** Two snapshots with the same paths, each a directory in one exactly
      when it is in the other: path lookups fail the same way in both. */
  predicate SameKinds(fs: Snapshot, fs': Snapshot)
  {
    && fs.Keys == fs'.Keys
    && forall q :: q in fs ==> (fs'[q].Directory? <==> fs[q].Directory?)
  }

  /** A stat that fails fails with the same error in a snapshot of the same
      kinds. */
  lemma StatErrorKept(fs: Snapshot, fs': Snapshot, p: string)
    requires SameKinds(fs, fs')
    ensures p !in fs ==> Stat(fs', p) == Stat(fs, p)
  {
    if UnderNonDirectory(fs, p) {
      var i :| 0 < i < |p| && p[i] == '/' && p[..i] in fs && !fs[p[..i]].Directory?;
      assert p[..i] in fs' && !fs'[p[..i]].Directory?;
    }
    if UnderNonDirectory(fs', p) {
      var i :| 0 < i < |p| && p[i] == '/' && p[..i] in fs' && !fs'[p[..i]].Directory?;
      assert p[..i] in fs && !fs[p[..i]].Directory?;
    }
  }

  /** Index of the last '/' in `p`, or -1 when there is none. */
  function LastSlash(p: string): (i: int)
    ensures -1 <= i < |p|
    ensures 0 <= i ==> p[i] == '/'
    ensures forall j :: i < j < |p| ==> p[j] != '/'
  {
    if |p| == 0 then -1
    else if p[|p| - 1] == '/' then |p| - 1
    else LastSlash(p[..|p| - 1])
  }

  /** Whether the directory that would hold a new entry at `p` exists: the
      working directory (no '/') and the root ("/x") always do. */
  predicate ParentIsDir(fs: Snapshot, p: string)
  {
    var i := LastSlash(p);
    i <= 0 || (p[..i] in fs && fs[p[..i]].Directory?)
  }

  function Min(a: int, b: int): int
  {
    if a <= b then a else b
  }
}
