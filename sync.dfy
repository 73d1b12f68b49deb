/** The primitives of package `dfs`: the modification-time comparison, the
    single-file copy, the directory-copy check and the guarded mkdir.

    `CompareFiles` and `CopyDir` only read stats, so they are functions of a
    snapshot. `CopyFile` and `CreateDirIfNotExist` change the filesystem: they
    are methods of the `FileSystem` class, each proved against a function
    (`CopyFileEffect`, `CreateDirEffect`) that states its outcome and the new
    state. */
module Sync {
  import opened Fs

  /** The three labels `CompareFiles` returns. */
  const DotFile: string := "dotfile"
  const SyncFile: string := "syncfile"
  const Synced: string := "synced"

  /** Decides from modification times alone. The first path is called
      `syncPath` and the second `dotFilePath`; "syncfile" means the first is
      strictly older, "dotfile" that the second is, "synced" that the times
      are equal. A path that fails to stat is an error, never a decision. */
  function CompareFiles(fs: Snapshot, syncPath: string, dotFilePath: string): (r: Result<string>)
    ensures syncPath !in fs ==> r == Err(Stat(fs, syncPath).error)
    ensures syncPath in fs && dotFilePath !in fs ==> r == Err(Stat(fs, dotFilePath).error)
    ensures r.Ok? <==> syncPath in fs && dotFilePath in fs
    ensures r.Ok? ==> (r.value == SyncFile <==> fs[syncPath].mtime < fs[dotFilePath].mtime)
    ensures r.Ok? ==> (r.value == DotFile <==> fs[dotFilePath].mtime < fs[syncPath].mtime)
    ensures r.Ok? ==> (r.value == Synced <==> fs[syncPath].mtime == fs[dotFilePath].mtime)
  {
    var syncStat := Stat(fs, syncPath);
    match syncStat
    case Err(e) => Err(e)
    case Ok(syncInfo) =>
      match Stat(fs, dotFilePath)
      case Err(e) => Err(e)
      case Ok(dotInfo) =>
        if syncInfo.mtime < dotInfo.mtime then Ok(SyncFile)
        else if dotInfo.mtime < syncInfo.mtime then
          // the stat of syncPath succeeded, so this test is always false
          if IsNotExist(syncStat) then Ok(SyncFile) else Ok(DotFile)
        else Ok(Synced)
  }

  /** Validates that the source is a listable directory and returns; the
      destination is never used and nothing is created or copied. */
  function CopyDir(fs: Snapshot, srcPath: string, dstPath: string, faults: Faults): (r: Outcome)
    ensures r == Pass <==> srcPath in fs && fs[srcPath].Directory? && srcPath !in faults.readDir
    ensures srcPath !in fs ==> r == Fail(Stat(fs, srcPath).error)
    ensures srcPath in fs && !fs[srcPath].Directory? ==> r == Fail(NotDirectory(srcPath))
    ensures r.Fail? && srcPath in fs && fs[srcPath].Directory? ==> r == Fail(IoFailure(srcPath))
  {
    match Stat(fs, srcPath)
    case Err(e) => Fail(e)
    case Ok(srcDir) =>
      if !srcDir.Directory? then Fail(NotDirectory(srcPath))
      else if srcPath in faults.readDir then Fail(IoFailure(srcPath))
      else Pass
  }

  /** Whether `os.Create(dst)` succeeds: it truncates an existing entry that
      is not a directory, or makes a new one inside an existing directory. */
  predicate CanCreate(fs: Snapshot, dst: string, faults: Faults)
  {
    && dst != ""
    && dst !in faults.create
    && (if dst in fs then !fs[dst].Directory? else ParentIsDir(fs, dst))
  }

  /** Outcome and new state of a file copy, with `now` the time the
      destination is written. */
  datatype Step = Step(outcome: Outcome, fs: Snapshot)

  /** What `CopyFile(src, dst)` does to a snapshot. A missing or non-regular
      source, a refused open and a refused create change nothing. Otherwise
      the destination is truncated and then receives the bytes the source
      holds at that moment: none when source and destination are the same
      path. A special destination keeps its node. */
  function CopyFileEffect(fs: Snapshot, src: string, dst: string, faults: Faults, now: int): (r: Step)
    ensures src !in fs ==> r == Step(Fail(Stat(fs, src).error), fs)
    ensures src in fs && !fs[src].Regular? ==> r == Step(Fail(NotRegularFile(src)), fs)
    ensures r.outcome == Pass <==>
              src in fs && fs[src].Regular? && src !in faults.open
              && CanCreate(fs, dst, faults) && dst !in faults.copy
    ensures r.outcome == Pass ==>
              r.fs == fs[dst := if dst in fs && fs[dst].Special? then fs[dst]
                                else Regular(if src == dst then [] else fs[src].content, now)]
    ensures r.outcome.Fail? && dst !in faults.copy ==> r.fs == fs
    ensures !(src in fs && fs[src].Regular? && src !in faults.open && CanCreate(fs, dst, faults)) ==> r.fs == fs
    ensures r.outcome.Fail? && r.fs != fs ==>
              dst in faults.copy && dst in r.fs && r.fs[dst].Regular?
              && r.fs[dst].content <= fs[src].content
    ensures forall p :: p != dst ==> (p in r.fs <==> p in fs) && (p in fs ==> r.fs[p] == fs[p])
    ensures dst in r.fs <==> dst in fs || r.fs != fs
    ensures dst in fs && fs[dst].Directory? ==> r.fs == fs
    ensures dst in r.fs && (dst !in fs || r.fs[dst] != fs[dst]) ==> r.fs[dst] == Regular(r.fs[dst].content, now)
  {
    match Stat(fs, src)
    case Err(e) => Step(Fail(e), fs)
    case Ok(info) =>
      if !info.Regular? then Step(Fail(NotRegularFile(src)), fs)
      else if src in faults.open then Step(Fail(IoFailure(src)), fs)
      else if !CanCreate(fs, dst, faults) then Step(Fail(IoFailure(dst)), fs)
      else
        var data := if src == dst then [] else info.content;
        var written := if dst in faults.copy then data[..Min(faults.copy[dst], |data|)] else data;
        var fs' := if dst in fs && fs[dst].Special? then fs else fs[dst := Regular(written, now)];
        Step(if dst in faults.copy then Fail(IoFailure(dst)) else Pass, fs')
  }

  /** What `CreateDirIfNotExist(path)` does to a snapshot: nothing when the
      stat fails for any reason but not-exist, in particular when the path
      exists, whatever its kind, or lies under a non-directory; otherwise a
      single `os.Mkdir`, which needs the parent directory and creates no
      ancestor. */
  function CreateDirEffect(fs: Snapshot, path: string, faults: Faults, now: int): (r: Step)
    ensures path in fs ==> r == Step(Pass, fs)
    ensures path !in fs && UnderNonDirectory(fs, path) ==> r == Step(Pass, fs)
    ensures path !in fs && !UnderNonDirectory(fs, path) ==>
              (r.outcome == Pass <==> path != "" && ParentIsDir(fs, path) && path !in faults.mkdir)
    ensures r.outcome == Pass ==> path in r.fs || UnderNonDirectory(fs, path)
    ensures path in r.fs && path !in fs ==> r.fs[path] == Directory(now)
    ensures r.outcome == Pass ==> forall p :: p in fs ==> p in r.fs && r.fs[p] == fs[p]
    ensures r.fs.Keys <= fs.Keys + {path}
    ensures r.outcome.Fail? ==> r == Step(Fail(IoFailure(path)), fs)
  {
    if !IsNotExist(Stat(fs, path)) then Step(Pass, fs)
    else if path == "" || !ParentIsDir(fs, path) || path in faults.mkdir then
      Step(Fail(IoFailure(path)), fs)
    else Step(Pass, fs[path := Directory(now)])
  }

  /** The filesystem the program runs against. */
  class FileSystem {
    var nodes: Snapshot

    constructor (initial: Snapshot)
      ensures nodes == initial
    {
      nodes := initial;
    }

    /** `CopyFile`, step by step: stat, open, create (truncating), copy. */
    method CopyFile(srcPath: string, dstPath: string, faults: Faults, now: int) returns (e: Outcome)
      modifies this
      ensures Step(e, nodes) == CopyFileEffect(old(nodes), srcPath, dstPath, faults, now)
    {
      var stat := Stat(nodes, srcPath);
      if stat.Err? {
        return Fail(stat.error);
      }
      var srcFile := stat.value;
      if !srcFile.Regular? {
        return Fail(NotRegularFile(srcPath));
      }
      if srcPath in faults.open {
        return Fail(IoFailure(srcPath));
      }
      if !CanCreate(nodes, dstPath, faults) {
        return Fail(IoFailure(dstPath));
      }
      var special := dstPath in nodes && nodes[dstPath].Special?;
      if !special {
        nodes := nodes[dstPath := Regular([], now)];
      }
      // io.Copy reads what the source holds after the truncation
      var data := nodes[srcPath].content;
      if dstPath in faults.copy {
        if !special {
          nodes := nodes[dstPath := Regular(data[..Min(faults.copy[dstPath], |data|)], now)];
        }
        return Fail(IoFailure(dstPath));
      }
      if !special {
        nodes := nodes[dstPath := Regular(data, now)];
      }
      return Pass;
    }

    /** `CreateDirIfNotExist`: stat, and mkdir only when the stat says the
        path does not exist. */
    method CreateDirIfNotExist(path: string, faults: Faults, now: int) returns (e: Outcome)
      modifies this
      ensures Step(e, nodes) == CreateDirEffect(old(nodes), path, faults, now)
    {
      if IsNotExist(Stat(nodes, path)) {
        if path == "" || !ParentIsDir(nodes, path) || path in faults.mkdir {
          return Fail(IoFailure(path));
        }
        nodes := nodes[path := Directory(now)];
      }
      return Pass;
    }
  }

  /** Swapping the arguments swaps "syncfile" and "dotfile" and keeps
      "synced"; the call fails for one order exactly when it fails for the
      other. */
  lemma CompareFilesSwap(fs: Snapshot, a: string, b: string)
    ensures CompareFiles(fs, a, b).Ok? <==> CompareFiles(fs, b, a).Ok?
    ensures CompareFiles(fs, a, b) == Ok(SyncFile) <==> CompareFiles(fs, b, a) == Ok(DotFile)
    ensures CompareFiles(fs, a, b) == Ok(DotFile) <==> CompareFiles(fs, b, a) == Ok(SyncFile)
    ensures CompareFiles(fs, a, b) == Ok(Synced) <==> CompareFiles(fs, b, a) == Ok(Synced)
  {
  }

  /** Contents are never read: changing the bytes of either file, or the
      kind of either node, leaves the decision as it was while the times stay. */
  lemma CompareFilesIgnoresContent(fs: Snapshot, a: string, b: string, na: Node, nb: Node)
    requires a in fs && b in fs && a != b
    requires na.mtime == fs[a].mtime && nb.mtime == fs[b].mtime
    ensures CompareFiles(fs[a := na][b := nb], a, b) == CompareFiles(fs, a, b)
  {
  }

  /** Two files with different bytes and the same time are "synced". */
  lemma CompareFilesEqualTimesDifferentBytes(fs: Snapshot, a: string, b: string)
    requires a in fs && b in fs && fs[a].Regular? && fs[b].Regular?
    requires fs[a].content != fs[b].content && fs[a].mtime == fs[b].mtime
    ensures CompareFiles(fs, a, b) == Ok(Synced)
  {
  }

  /** Every successful comparison yields one of the three labels, so a
      caller's default branch only ever sees an error's empty label. */
  lemma CompareFilesLabels(fs: Snapshot, a: string, b: string)
    ensures CompareFiles(fs, a, b).Ok? ==> CompareFiles(fs, a, b).value in {SyncFile, DotFile, Synced}
  {
  }

  /** The destination of `CopyDir` plays no part in what it returns. */
  lemma CopyDirIgnoresDestination(fs: Snapshot, src: string, d1: string, d2: string, faults: Faults)
    ensures CopyDir(fs, src, d1, faults) == CopyDir(fs, src, d2, faults)
  {
  }

  /** After a successful call the path exists or lies under a non-directory,
      so a second call, at any time and with any faults, succeeds and changes
      nothing. */
  lemma CreateDirIdempotent(fs: Snapshot, path: string, faults: Faults, now: int, faults': Faults, later: int)
    ensures var first := CreateDirEffect(fs, path, faults, now);
            first.outcome == Pass ==> CreateDirEffect(first.fs, path, faults', later) == Step(Pass, first.fs)
  {
  }

  /** A successful copy between two different paths leaves a destination
      that is not special holding exactly the source's bytes, and the
      source as it was. */
  lemma CopyFileCopiesBytes(fs: Snapshot, src: string, dst: string, faults: Faults, now: int)
    requires src != dst
    requires dst !in fs || !fs[dst].Special?
    ensures var r := CopyFileEffect(fs, src, dst, faults, now);
            r.outcome == Pass ==>
              && dst in r.fs && r.fs[dst].Regular? && r.fs[dst].content == fs[src].content
              && src in r.fs && r.fs[src] == fs[src]
  {
  }

  /** Copying a file onto itself empties it: `os.Create` truncates the very
      file that `io.Copy` then reads. */
  lemma CopyFileOntoItself(fs: Snapshot, p: string, faults: Faults, now: int)
    ensures var r := CopyFileEffect(fs, p, p, faults, now);
            && (r.outcome == Pass ==> r.fs == fs[p := Regular([], now)])
            && (&& p != "" && p in fs && fs[p].Regular?
                && p !in faults.open && p !in faults.create && p !in faults.copy
                ==> r.outcome == Pass)
  {
  }
}
