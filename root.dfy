/** The root command's `Run`: scaffold the sync directories, then, when the
    sync flag is set, create each configured sync directory and reconcile
    each configured dotfile by comparing modification times and copying one
    side over the other.

    Configuration loading, the home-directory lookup and the flag parsing
    are outside the model: their results are the inputs of `Run`. `os.Exit`
    becomes a returned error (`exit == Some(e)`), after which nothing else
    runs. Alongside the filesystem, `Run` yields the log of the engine calls
    it made, in order. */
module Root {
  import opened Fs
  import opened Sync

  /** The configuration record; `dotFilesIgnore` is loaded but never used. */
  datatype Config = Config(
    syncBaseDir: string,
    xdgBaseDir: string,
    syncDirs: seq<string>,
    dotFiles: seq<string>,
    dotFilesIgnore: seq<string>)

  /** `fmt.Sprintf("%s/%s", a, b)`. */
  function Join(a: string, b: string): string
  {
    a + "/" + b
  }

  function SyncBase(home: string, cfg: Config): string
  {
    Join(home, cfg.syncBaseDir)
  }

  function XdgBase(home: string, cfg: Config): string
  {
    Join(Join(home, cfg.syncBaseDir), cfg.xdgBaseDir)
  }

  /** A sync directory is the base and the entry glued together, with no
      separator between them. */
  function SyncDirPath(base: string, dir: string): string
  {
    base + dir
  }

  /** The live copy of a dotfile (the source calls it `syncFilePath`). */
  function LivePath(home: string, file: string): string
  {
    Join(home, file)
  }

  /** The backup copy of a dotfile (the source calls it `dotFilePath`). */
  function BackupPath(base: string, file: string): string
  {
    Join(base, file)
  }

  /** One engine call made by `Run`, with what it returned. */
  datatype Action =
    | Ensured(path: string, outcome: Outcome)                   // CreateDirIfNotExist
    | Compared(first: string, second: string, result: Result<string>) // CompareFiles
    | Copied(src: string, dst: string, outcome: Outcome)         // CopyFile

  /** Where a run, or part of one, ends: `exit` is the error it exited with,
      if any, `fs` the filesystem and `log` the calls made. */
  datatype Progress = Progress(exit: Option<Error>, fs: Snapshot, log: seq<Action>)

  function Prepend(log: seq<Action>, p: Progress): Progress
  {
    Progress(p.exit, p.fs, log + p.log)
  }

  /** The `switch` on the label: the (source, destination) pair to copy. */
  function Dispatch(decision: string, live: string, backup: string): (r: Option<(string, string)>)
    ensures r.Some? <==> decision == DotFile || decision == SyncFile
    ensures r.Some? ==> r.value == (live, backup) || r.value == (backup, live)
    ensures live != backup && r.Some? ==> (r.value.1 == live <==> decision == DotFile)
  {
    if decision == DotFile then Some((backup, live))
    else if decision == SyncFile then Some((live, backup))
    else None
  }

  /** One iteration of the dotfile loop. A comparison error exits; a copy
      always copies the side with the strictly earlier time over the other,
      and its error is ignored. */
  function SyncOne(fs: Snapshot, home: string, base: string, file: string, faults: Faults, now: int): (r: Progress)
    ensures var live, backup := LivePath(home, file), BackupPath(base, file);
            && 1 <= |r.log| <= 2
            && r.log[0] == Compared(live, backup, CompareFiles(fs, live, backup))
            && (r.exit.Some? <==> live !in fs || backup !in fs)
            && (r.exit.Some? ==>
                  r.exit == Some(Stat(fs, if live !in fs then live else backup).error)
                  && r.fs == fs && |r.log| == 1)
            && (r.exit.None? ==> (|r.log| == 1 <==> fs[live].mtime == fs[backup].mtime))
            && (|r.log| == 1 ==> r.fs == fs)
            && (|r.log| == 2 ==>
                  && r.log[1].Copied?
                  && var s, d := r.log[1].src, r.log[1].dst;
                  && ((s, d) == (live, backup) || (s, d) == (backup, live))
                  && s in fs && d in fs && fs[s].mtime < fs[d].mtime
                  && Step(r.log[1].outcome, r.fs) == CopyFileEffect(fs, s, d, faults, now))
            && r.fs.Keys == fs.Keys
            && (forall p :: p in fs && p != live && p != backup ==> r.fs[p] == fs[p])
            && (forall p :: p in fs && fs[p].Directory? ==> r.fs[p] == fs[p])
  {
    var live, backup := LivePath(home, file), BackupPath(base, file);
    var cmp := CompareFiles(fs, live, backup);
    match cmp
    case Err(e) => Progress(Some(e), fs, [Compared(live, backup, cmp)])
    case Ok(decision) =>
      match Dispatch(decision, live, backup)
      case None => Progress(None, fs, [Compared(live, backup, cmp)])
      case Some((src, dst)) =>
        var c := CopyFileEffect(fs, src, dst, faults, now);
        Progress(None, c.fs, [Compared(live, backup, cmp), Copied(src, dst, c.outcome)])
  }

  /** The dotfile loop, in list order, stopping at the first exit. */
  function SyncFiles(fs: Snapshot, home: string, base: string, files: seq<string>, faults: Faults, now: int): Progress
    decreases |files|
  {
    if files == [] then Progress(None, fs, [])
    else
      var first := SyncOne(fs, home, base, files[0], faults, now);
      if first.exit.Some? then first
      else Prepend(first.log, SyncFiles(first.fs, home, base, files[1..], faults, now))
  }

  /** The sync-directory loop, stopping at the first failed mkdir. */
  function EnsureDirs(fs: Snapshot, base: string, dirs: seq<string>, faults: Faults, now: int): Progress
    decreases |dirs|
  {
    if dirs == [] then Progress(None, fs, [])
    else
      var path := SyncDirPath(base, dirs[0]);
      var c := CreateDirEffect(fs, path, faults, now);
      if c.outcome.Fail? then Progress(Some(c.outcome.error), c.fs, [Ensured(path, c.outcome)])
      else Prepend([Ensured(path, c.outcome)], EnsureDirs(c.fs, base, dirs[1..], faults, now))
  }

  /** The two directory creations `Run` starts with: the sync base, then
      the XDG base inside it; the first failure exits. */
  function Scaffold(fs: Snapshot, home: string, cfg: Config, faults: Faults, now: int): Progress
  {
    var base, xdg := SyncBase(home, cfg), XdgBase(home, cfg);
    var a := CreateDirEffect(fs, base, faults, now);
    if a.outcome.Fail? then Progress(Some(a.outcome.error), a.fs, [Ensured(base, a.outcome)])
    else
      var b := CreateDirEffect(a.fs, xdg, faults, now);
      Progress(if b.outcome.Fail? then Some(b.outcome.error) else None,
               b.fs, [Ensured(base, a.outcome), Ensured(xdg, b.outcome)])
  }

  /** The whole of `Run`: the scaffolding, then (with the sync flag) the sync
      directories and the dotfiles. */
  function RunSpec(fs: Snapshot, home: string, cfg: Config, sync: bool, faults: Faults, now: int): Progress
  {
    var s := Scaffold(fs, home, cfg, faults, now);
    if s.exit.Some? || !sync then s
    else
      var base := SyncBase(home, cfg);
      var d := EnsureDirs(s.fs, base, cfg.syncDirs, faults, now);
      if d.exit.Some? then Prepend(s.log, d)
      else Prepend(s.log + d.log, SyncFiles(d.fs, home, base, cfg.dotFiles, faults, now))
  }

  /** Whether a run gets as far as the dotfile loop. */
  predicate ReachesDotFiles(fs: Snapshot, home: string, cfg: Config, sync: bool, faults: Faults, now: int)
  {
    var s := Scaffold(fs, home, cfg, faults, now);
    && s.exit.None? && sync
    && EnsureDirs(s.fs, SyncBase(home, cfg), cfg.syncDirs, faults, now).exit.None?
  }

  /** The root command's state: the package-level variables `Run` assigns
      and reads, and the filesystem it works on. */
  class RootCommand {
    var syncBaseDir: string
    var dotFilePaths: seq<string>
    var sync: bool
    const fs: FileSystem

    constructor (fs: FileSystem, sync: bool)
      ensures this.fs == fs && this.sync == sync
      ensures syncBaseDir == "" && dotFilePaths == []
    {
      this.fs := fs;
      this.sync := sync;
      syncBaseDir := "";
      dotFilePaths := [];
    }

    method Run(cfg: Config, home: string, faults: Faults, now: int) returns (exit: Option<Error>, log: seq<Action>)
      modifies this, fs
      ensures Progress(exit, fs.nodes, log) == RunSpec(old(fs.nodes), home, cfg, sync, faults, now)
      ensures sync == old(sync)
      ensures syncBaseDir == SyncBase(home, cfg)
      ensures dotFilePaths ==
                if ReachesDotFiles(old(fs.nodes), home, cfg, sync, faults, now) then cfg.dotFiles
                else old(dotFilePaths)
    {
      syncBaseDir := home + "/" + cfg.syncBaseDir;
      exit, log := CreateBaseDirs(home, cfg, faults, now);
      if exit.Some? || !sync {
        return;
      }

      var dirLog;
      exit, dirLog := CreateSyncDirs(cfg.syncDirs, faults, now);
      log := log + dirLog;
      if exit.Some? {
        return;
      }

      dotFilePaths := cfg.dotFiles;
      var fileLog;
      exit, fileLog := SyncDotFiles(home, faults, now);
      log := log + fileLog;
    }

    /** The sync base and the XDG base, each through `CreateDirIfNotExist`. */
    method CreateBaseDirs(home: string, cfg: Config, faults: Faults, now: int) returns (exit: Option<Error>, log: seq<Action>)
      requires syncBaseDir == SyncBase(home, cfg)
      modifies fs
      ensures Progress(exit, fs.nodes, log) == Scaffold(old(fs.nodes), home, cfg, faults, now)
    {
      var err := fs.CreateDirIfNotExist(syncBaseDir, faults, now);
      log := [Ensured(syncBaseDir, err)];
      if err.Fail? {
        return Some(err.error), log;
      }
      var xdgBaseDir := home + "/" + cfg.syncBaseDir + "/" + cfg.xdgBaseDir;
      err := fs.CreateDirIfNotExist(xdgBaseDir, faults, now);
      log := log + [Ensured(xdgBaseDir, err)];
      if err.Fail? {
        return Some(err.error), log;
      }
      return None, log;
    }

    /** The loop over the configured sync directories. */
    method CreateSyncDirs(dirs: seq<string>, faults: Faults, now: int) returns (exit: Option<Error>, log: seq<Action>)
      modifies fs
      ensures Progress(exit, fs.nodes, log) == EnsureDirs(old(fs.nodes), syncBaseDir, dirs, faults, now)
    {
      ghost var start := fs.nodes;
      log := [];
      var i := 0;
      while i < |dirs|
        invariant 0 <= i <= |dirs|
        invariant EnsureDirs(start, syncBaseDir, dirs, faults, now)
                  == Prepend(log, EnsureDirs(fs.nodes, syncBaseDir, dirs[i..], faults, now))
      {
        var syncPath := syncBaseDir + dirs[i];
        assert dirs[i..][1..] == dirs[i + 1..];
        var err := fs.CreateDirIfNotExist(syncPath, faults, now);
        log := log + [Ensured(syncPath, err)];
        if err.Fail? {
          return Some(err.error), log;
        }
        i := i + 1;
      }
      return None, log;
    }

    /** The loop over `dotFilePaths`. */
    method SyncDotFiles(home: string, faults: Faults, now: int) returns (exit: Option<Error>, log: seq<Action>)
      modifies fs
      ensures Progress(exit, fs.nodes, log) == SyncFiles(old(fs.nodes), home, syncBaseDir, dotFilePaths, faults, now)
    {
      ghost var start := fs.nodes;
      log := [];
      var j := 0;
      while j < |dotFilePaths|
        invariant 0 <= j <= |dotFilePaths|
        invariant SyncFiles(start, home, syncBaseDir, dotFilePaths, faults, now)
                  == Prepend(log, SyncFiles(fs.nodes, home, syncBaseDir, dotFilePaths[j..], faults, now))
      {
        assert dotFilePaths[j..][1..] == dotFilePaths[j + 1..];
        ghost var rest := SyncFiles(fs.nodes, home, syncBaseDir, dotFilePaths[j..], faults, now);
        var step := SyncDotFile(home, dotFilePaths[j], faults, now);
        log := log + step.log;
        if step.exit.Some? {
          assert rest == step;
          return step.exit, log;
        }
        assert rest == Prepend(step.log, SyncFiles(fs.nodes, home, syncBaseDir, dotFilePaths[j + 1..], faults, now));
        j := j + 1;
      }
      return None, log;
    }

    /** One iteration of the dotfile loop: compare, then copy per the label. */
    method SyncDotFile(home: string, file: string, faults: Faults, now: int) returns (step: Progress)
      modifies fs
      ensures step == SyncOne(old(fs.nodes), home, syncBaseDir, file, faults, now) && step.fs == fs.nodes
    {
      var syncFilePath := home + "/" + file;
      var dotFilePath := syncBaseDir + "/" + file;
      var needsSynced := CompareFiles(fs.nodes, syncFilePath, dotFilePath);
      var log := [Compared(syncFilePath, dotFilePath, needsSynced)];
      if needsSynced.Err? {
        return Progress(Some(needsSynced.error), fs.nodes, log);
      }
      var decision := needsSynced.value;
      if decision == DotFile {
        var e := fs.CopyFile(dotFilePath, syncFilePath, faults, now);  // error discarded
        log := log + [Copied(dotFilePath, syncFilePath, e)];
      } else if decision == SyncFile {
        var e := fs.CopyFile(syncFilePath, dotFilePath, faults, now);  // error discarded
        log := log + [Copied(syncFilePath, dotFilePath, e)];
      }
      return Progress(None, fs.nodes, log);
    }
  }

  // ---------------------------------------------------------------------
  // What a run does, stated over the specification functions above.

  /** The (first, second) argument pair of a `CompareFiles` call, if `a` is one. */
  function CompareOf(a: Action): seq<(string, string)>
  {
    if a.Compared? then [(a.first, a.second)] else []
  }

  /** The (first, second) argument pairs of the `CompareFiles` calls in a log. */
  function Compares(log: seq<Action>): seq<(string, string)>
  {
    if log == [] then [] else CompareOf(log[0]) + Compares(log[1..])
  }

  /** The (live, backup) pair of each dotfile, in list order. */
  function Pairs(home: string, base: string, files: seq<string>): seq<(string, string)>
  {
    if files == [] then [] else [(LivePath(home, files[0]), BackupPath(base, files[0]))] + Pairs(home, base, files[1..])
  }

  /** Every live and backup path of the listed dotfiles. */
  function TrackedPaths(home: string, base: string, files: seq<string>): set<string>
  {
    (set f | f in files :: LivePath(home, f)) + (set f | f in files :: BackupPath(base, f))
  }

  function SyncDirPaths(base: string, dirs: seq<string>): set<string>
  {
    set d | d in dirs :: SyncDirPath(base, d)
  }

  predicate Missing(present: set<string>, home: string, base: string, file: string)
  {
    LivePath(home, file) !in present || BackupPath(base, file) !in present
  }

  /** The index of the first dotfile with a missing side, or the length of the list. */
  function FirstMissing(present: set<string>, home: string, base: string, files: seq<string>): (k: nat)
    ensures k <= |files|
    ensures forall i :: 0 <= i < k ==> !Missing(present, home, base, files[i])
    ensures k < |files| ==> Missing(present, home, base, files[k])
  {
    if files == [] then 0
    else if Missing(present, home, base, files[0]) then 0
    else 1 + FirstMissing(present, home, base, files[1..])
  }

  lemma {:induction false} ComparesAppend(a: seq<Action>, b: seq<Action>)
    ensures Compares(a + b) == Compares(a) + Compares(b)
    decreases |a|
  {
    if a == [] {
      assert a + b == b;
    } else {
      assert (a + b)[0] == a[0];
      assert (a + b)[1..] == a[1..] + b;
      ComparesAppend(a[1..], b);
    }
  }

  lemma ComparesShort(x: Action, y: Action)
    ensures Compares([x]) == CompareOf(x)
    ensures Compares([x, y]) == CompareOf(x) + CompareOf(y)
  {
    assert [x, y][1..] == [y];
    assert [y][1..] == [];
    assert [x][1..] == [];
  }

  /** The live path of a dotfile and its backup path are never the same
      string: the backup is longer by the sync directory and a separator. */
  lemma LiveAndBackupDiffer(home: string, cfg: Config, file: string)
    ensures LivePath(home, file) != BackupPath(SyncBase(home, cfg), file)
  {
    assert |BackupPath(SyncBase(home, cfg), file)| == |LivePath(home, file)| + |cfg.syncBaseDir| + 1;
  }

  /** With no separator inserted, a sync-directory entry that does not start
      with '/' extends the name of the sync base. When the base does not end
      in '/', that is a sibling of the base, never a path inside it; when it
      does (an empty or '/'-terminated `SyncBaseDir`), it is a path inside
      the directory the base names. */
  lemma SyncDirOutsideBase(base: string, dir: string)
    requires dir != [] && dir[0] != '/'
    ensures base <= SyncDirPath(base, dir)
    ensures base != [] && base[|base| - 1] != '/' ==> !(Join(base, "") <= SyncDirPath(base, dir))
    ensures base != [] && base[|base| - 1] == '/' ==>
              Join(base[..|base| - 1], "") <= SyncDirPath(base, dir)
              && |Join(base[..|base| - 1], "")| < |SyncDirPath(base, dir)|
  {
    assert SyncDirPath(base, dir)[|base|] == dir[0];
    assert Join(base, "")[|base|] == '/';
    if base != [] && base[|base| - 1] == '/' {
      assert Join(base[..|base| - 1], "") == base;
    }
  }

  /** A comparison always logs exactly its own (live, backup) pair. */
  lemma SyncOneCompares(fs: Snapshot, home: string, base: string, file: string, faults: Faults, now: int)
    ensures Compares(SyncOne(fs, home, base, file, faults, now).log)
            == [(LivePath(home, file), BackupPath(base, file))]
  {
    var r := SyncOne(fs, home, base, file, faults, now);
    if |r.log| == 2 {
      assert r.log == [r.log[0], r.log[1]];
      ComparesShort(r.log[0], r.log[1]);
    } else {
      assert r.log == [r.log[0]];
      ComparesShort(r.log[0], r.log[0]);
    }
  }

  /** The dotfile loop never creates or removes a path, never touches a
      directory, and changes only live and backup paths of listed dotfiles. */
  lemma {:induction false} SyncFilesFrame(fs: Snapshot, home: string, base: string, files: seq<string>, faults: Faults, now: int)
    ensures var r := SyncFiles(fs, home, base, files, faults, now);
            && r.fs.Keys == fs.Keys
            && (forall p :: p in fs && p !in TrackedPaths(home, base, files) ==> r.fs[p] == fs[p])
            && (forall p :: p in fs && fs[p].Directory? ==> r.fs[p] == fs[p])
    decreases |files|
  {
    if files != [] {
      var first := SyncOne(fs, home, base, files[0], faults, now);
      if first.exit.None? {
        SyncFilesFrame(first.fs, home, base, files[1..], faults, now);
        assert forall f :: f in files[1..] ==> f in files;
        assert TrackedPaths(home, base, files[1..]) <= TrackedPaths(home, base, files);
      }
    }
  }

  /** A comparison and copy never turn a directory into a file or back. */
  lemma SyncOneKeepsKinds(fs: Snapshot, home: string, base: string, file: string, faults: Faults, now: int)
    ensures SameKinds(fs, SyncOne(fs, home, base, file, faults, now).fs)
  {
    var r := SyncOne(fs, home, base, file, faults, now);
    forall q | q in fs
      ensures r.fs[q].Directory? <==> fs[q].Directory?
    {
      if |r.log| == 2 && q == r.log[1].dst && r.fs[q] != fs[q] {
        assert r.fs[q].Regular?;
      }
    }
  }

  /** The dotfile loop exits exactly at the first dotfile with a missing
      side, with the stat error of that side. A failed copy never stops
      the loop. */
  lemma {:induction false} SyncFilesExit(fs: Snapshot, home: string, base: string, files: seq<string>, faults: Faults, now: int)
    ensures var r := SyncFiles(fs, home, base, files, faults, now);
            var k := FirstMissing(fs.Keys, home, base, files);
            && (r.exit.Some? <==> k < |files|)
            && (k < |files| ==>
                  r.exit == Some(Stat(fs,
                    if LivePath(home, files[k]) !in fs then LivePath(home, files[k]) else BackupPath(base, files[k])).error))
    decreases |files|
  {
    if files != [] {
      var first := SyncOne(fs, home, base, files[0], faults, now);
      if first.exit.Some? {
        assert FirstMissing(fs.Keys, home, base, files) == 0;
      } else {
        var rest := SyncFiles(first.fs, home, base, files[1..], faults, now);
        assert SyncFiles(fs, home, base, files, faults, now).exit == rest.exit;
        SyncFilesExit(first.fs, home, base, files[1..], faults, now);
        var k' := FirstMissing(first.fs.Keys, home, base, files[1..]);
        assert FirstMissing(fs.Keys, home, base, files) == 1 + k';
        if k' < |files| - 1 {
          var f := files[k' + 1];
          assert files[1..][k'] == f;
          SyncOneKeepsKinds(fs, home, base, files[0], faults, now);
          StatErrorKept(fs, first.fs, LivePath(home, f));
          StatErrorKept(fs, first.fs, BackupPath(base, f));
        }
      }
    }
  }

  /** The dotfile loop compares the dotfiles in list order, live path first,
      up to and including the first one with a missing side; later dotfiles
      are never compared. */
  lemma {:induction false} SyncFilesOrder(fs: Snapshot, home: string, base: string, files: seq<string>, faults: Faults, now: int)
    ensures var r := SyncFiles(fs, home, base, files, faults, now);
            var k := FirstMissing(fs.Keys, home, base, files);
            Compares(r.log) == Pairs(home, base, files[..if k < |files| then k + 1 else k])
    decreases |files|
  {
    if files != [] {
      var first := SyncOne(fs, home, base, files[0], faults, now);
      SyncOneCompares(fs, home, base, files[0], faults, now);
      if first.exit.Some? {
        assert FirstMissing(fs.Keys, home, base, files) == 0;
        PairsCons(home, base, files, 0);
        assert files[1..][..0] == [];
      } else {
        var rest := SyncFiles(first.fs, home, base, files[1..], faults, now);
        assert SyncFiles(fs, home, base, files, faults, now).log == first.log + rest.log;
        SyncFilesOrder(first.fs, home, base, files[1..], faults, now);
        ComparesAppend(first.log, rest.log);
        var k' := FirstMissing(first.fs.Keys, home, base, files[1..]);
        assert FirstMissing(fs.Keys, home, base, files) == 1 + k';
        var n' := if k' < |files| - 1 then k' + 1 else k';
        PairsCons(home, base, files, n');
        assert Compares(first.log + rest.log) == Pairs(home, base, files[..n' + 1]);
      }
    }
  }

  /** The pairs of a non-empty prefix start with the first dotfile's pair. */
  lemma PairsCons(home: string, base: string, files: seq<string>, n: nat)
    requires n < |files|
    ensures Pairs(home, base, files[..n + 1])
            == [(LivePath(home, files[0]), BackupPath(base, files[0]))] + Pairs(home, base, files[1..][..n])
  {
    assert files[..n + 1][1..] == files[1..][..n];
  }

  /** Pairs of a prefix of the list are a prefix of the pairs. */
  lemma {:induction false} PairsPrefix(home: string, base: string, files: seq<string>, n: nat)
    requires n <= |files|
    ensures Pairs(home, base, files[..n]) <= Pairs(home, base, files)
    decreases n
  {
    if n > 0 {
      assert files[..n][1..] == files[1..][..n - 1];
      PairsPrefix(home, base, files[1..], n - 1);
    }
  }

  /** The sync-directory loop adds nothing but new directories at
      `base + dir` paths, changes no existing path, and on success has
      created every `base + dir`. */
  lemma {:induction false} EnsureDirsEffect(fs: Snapshot, base: string, dirs: seq<string>, faults: Faults, now: int)
    ensures var r := EnsureDirs(fs, base, dirs, faults, now);
            && fs.Keys <= r.fs.Keys <= fs.Keys + SyncDirPaths(base, dirs)
            && (forall p :: p in fs ==> r.fs[p] == fs[p])
            && (forall p :: p in r.fs && p !in fs ==> r.fs[p] == Directory(now))
            && (r.exit.None? ==> forall d :: d in dirs ==>
                  SyncDirPath(base, d) in r.fs || UnderNonDirectory(r.fs, SyncDirPath(base, d)))
    decreases |dirs|
  {
    if dirs != [] {
      var path := SyncDirPath(base, dirs[0]);
      var c := CreateDirEffect(fs, path, faults, now);
      if c.outcome.Pass? {
        EnsureDirsEffect(c.fs, base, dirs[1..], faults, now);
        assert forall d :: d in dirs[1..] ==> d in dirs;
        assert forall d :: d in dirs ==> d == dirs[0] || d in dirs[1..];
        assert SyncDirPaths(base, dirs) == {path} + SyncDirPaths(base, dirs[1..]);
      }
    }
  }

  /** The sync-directory loop ensures `base + dir` for the entries in list
      order, one call each. */
  lemma {:induction false} EnsureDirsLog(fs: Snapshot, base: string, dirs: seq<string>, faults: Faults, now: int)
    ensures var r := EnsureDirs(fs, base, dirs, faults, now);
            && |r.log| <= |dirs|
            && (forall i :: 0 <= i < |r.log| ==> r.log[i].Ensured? && r.log[i].path == SyncDirPath(base, dirs[i]))
    decreases |dirs|
  {
    if dirs != [] {
      var path := SyncDirPath(base, dirs[0]);
      var c := CreateDirEffect(fs, path, faults, now);
      if c.outcome.Pass? {
        var rest := EnsureDirs(c.fs, base, dirs[1..], faults, now);
        EnsureDirsLog(c.fs, base, dirs[1..], faults, now);
        var log := [Ensured(path, c.outcome)] + rest.log;
        assert EnsureDirs(fs, base, dirs, faults, now).log == log;
        assert forall i :: 0 < i < |log| ==> log[i] == rest.log[i - 1] && dirs[i] == dirs[1..][i - 1];
      }
    }
  }

  /** The sync-directory loop stops at the first failed call, which is the
      last one it makes, and exits with its error; it runs to the end of the
      list exactly when every call passes. */
  lemma {:induction false} EnsureDirsExit(fs: Snapshot, base: string, dirs: seq<string>, faults: Faults, now: int)
    ensures var r := EnsureDirs(fs, base, dirs, faults, now);
            && (r.exit.None? <==>
                  |r.log| == |dirs| && forall i :: 0 <= i < |r.log| ==> r.log[i] == Ensured(SyncDirPath(base, dirs[i]), Pass))
            && (r.exit.Some? ==>
                  0 < |r.log| <= |dirs|
                  && r.log[|r.log| - 1] == Ensured(SyncDirPath(base, dirs[|r.log| - 1]), Fail(r.exit.value)))
    decreases |dirs|
  {
    if dirs != [] {
      var path := SyncDirPath(base, dirs[0]);
      var c := CreateDirEffect(fs, path, faults, now);
      if c.outcome.Pass? {
        var rest := EnsureDirs(c.fs, base, dirs[1..], faults, now);
        EnsureDirsExit(c.fs, base, dirs[1..], faults, now);
        var log := [Ensured(path, c.outcome)] + rest.log;
        assert EnsureDirs(fs, base, dirs, faults, now) == Progress(rest.exit, rest.fs, log);
        assert log[0] == Ensured(path, Pass);
        assert forall i :: 0 < i < |log| ==> log[i] == rest.log[i - 1] && dirs[i] == dirs[1..][i - 1];
      }
    }
  }

  /** The sync-directory loop compares nothing. */
  lemma {:induction false} EnsureDirsCompares(fs: Snapshot, base: string, dirs: seq<string>, faults: Faults, now: int)
    ensures Compares(EnsureDirs(fs, base, dirs, faults, now).log) == []
    decreases |dirs|
  {
    if dirs != [] {
      var path := SyncDirPath(base, dirs[0]);
      var c := CreateDirEffect(fs, path, faults, now);
      var head := [Ensured(path, c.outcome)];
      ComparesShort(head[0], head[0]);
      if c.outcome.Pass? {
        EnsureDirsCompares(c.fs, base, dirs[1..], faults, now);
        ComparesAppend(head, EnsureDirs(c.fs, base, dirs[1..], faults, now).log);
      }
    }
  }

  /** The scaffolding compares nothing. */
  lemma ScaffoldCompares(fs: Snapshot, home: string, cfg: Config, faults: Faults, now: int)
    ensures Compares(Scaffold(fs, home, cfg, faults, now).log) == []
  {
    var s := Scaffold(fs, home, cfg, faults, now);
    if |s.log| == 2 {
      assert s.log == [s.log[0], s.log[1]];
      ComparesShort(s.log[0], s.log[1]);
    } else {
      assert s.log == [s.log[0]];
      ComparesShort(s.log[0], s.log[0]);
    }
  }

  /** A run first ensures the sync base and then the XDG base; a failure of
      either exits with nothing else done. */
  lemma RunScaffoldsFirst(fs: Snapshot, home: string, cfg: Config, sync: bool, faults: Faults, now: int)
    ensures var r := RunSpec(fs, home, cfg, sync, faults, now);
            var base, xdg := SyncBase(home, cfg), XdgBase(home, cfg);
            && |r.log| >= 1 && r.log[0].Ensured? && r.log[0].path == base
            && (r.log[0].outcome.Fail? ==>
                  r == Progress(Some(IoFailure(base)), fs, [Ensured(base, Fail(IoFailure(base)))]))
            && (r.log[0].outcome.Pass? ==>
                  && |r.log| >= 2 && r.log[1].Ensured? && r.log[1].path == xdg
                  && (r.log[1].outcome.Fail? ==>
                        && r.exit == Some(IoFailure(xdg)) && |r.log| == 2
                        && r.fs == CreateDirEffect(fs, base, faults, now).fs))
  {
  }

  /** A sync base that exists but is not a directory passes both scaffold
      calls and changes nothing: the stat of the XDG base inside it fails with
      not-a-directory rather than not-exist, so no mkdir is tried. */
  lemma ScaffoldOverFile(fs: Snapshot, home: string, cfg: Config, faults: Faults, now: int)
    requires SyncBase(home, cfg) in fs && !fs[SyncBase(home, cfg)].Directory?
    ensures Scaffold(fs, home, cfg, faults, now)
            == Progress(None, fs, [Ensured(SyncBase(home, cfg), Pass), Ensured(XdgBase(home, cfg), Pass)])
  {
    var base, xdg := SyncBase(home, cfg), XdgBase(home, cfg);
    assert xdg[..|base|] == base && xdg[|base|] == '/';
    assert xdg !in fs ==> UnderNonDirectory(fs, xdg);
  }

  /** Without the sync flag the only changes a run makes are the two base
      directories, and no file is compared or copied. */
  lemma RunWithoutSync(fs: Snapshot, home: string, cfg: Config, faults: Faults, now: int)
    ensures var r := RunSpec(fs, home, cfg, false, faults, now);
            && fs.Keys <= r.fs.Keys <= fs.Keys + {SyncBase(home, cfg), XdgBase(home, cfg)}
            && (forall p :: p in fs ==> r.fs[p] == fs[p])
            && (forall p :: p in r.fs && p !in fs ==> r.fs[p] == Directory(now))
            && Compares(r.log) == []
            && (forall i :: 0 <= i < |r.log| ==> r.log[i].Ensured?)
  {
    ScaffoldCompares(fs, home, cfg, faults, now);
  }

  /** A run never removes a path, creates nothing but directories (the two
      bases and the sync-directory paths), never changes an existing
      directory, and changes an existing file only when it is the live or
      the backup copy of a listed dotfile. */
  lemma RunEffect(fs: Snapshot, home: string, cfg: Config, sync: bool, faults: Faults, now: int)
    ensures var r := RunSpec(fs, home, cfg, sync, faults, now);
            var base := SyncBase(home, cfg);
            && fs.Keys <= r.fs.Keys
            && (forall p :: p in r.fs && p !in fs ==>
                  r.fs[p] == Directory(now) && p in {base, XdgBase(home, cfg)} + SyncDirPaths(base, cfg.syncDirs))
            && (forall p :: p in fs && fs[p].Directory? ==> r.fs[p] == fs[p])
            && (forall p :: p in fs && p !in TrackedPaths(home, base, cfg.dotFiles) ==> r.fs[p] == fs[p])
  {
    var base := SyncBase(home, cfg);
    var s := Scaffold(fs, home, cfg, faults, now);
    if s.exit.None? && sync {
      var d := EnsureDirs(s.fs, base, cfg.syncDirs, faults, now);
      EnsureDirsEffect(s.fs, base, cfg.syncDirs, faults, now);
      if d.exit.None? {
        SyncFilesFrame(d.fs, home, base, cfg.dotFiles, faults, now);
      }
    }
  }

  /** The `CompareFiles` calls of a run are, in order, those of a prefix of
      the dotfile list with the live path first, and of the whole list when
      the run does not exit; a run that stops before the dotfile loop
      compares nothing. */
  lemma RunComparesInOrder(fs: Snapshot, home: string, cfg: Config, sync: bool, faults: Faults, now: int)
    ensures var r := RunSpec(fs, home, cfg, sync, faults, now);
            var pairs := Pairs(home, SyncBase(home, cfg), cfg.dotFiles);
            && (!ReachesDotFiles(fs, home, cfg, sync, faults, now) ==> Compares(r.log) == [])
            && (ReachesDotFiles(fs, home, cfg, sync, faults, now) ==>
                  && Compares(r.log) <= pairs
                  && (r.exit.None? ==> Compares(r.log) == pairs))
  {
    var base := SyncBase(home, cfg);
    var s := Scaffold(fs, home, cfg, faults, now);
    ScaffoldCompares(fs, home, cfg, faults, now);
    if s.exit.None? && sync {
      var d := EnsureDirs(s.fs, base, cfg.syncDirs, faults, now);
      EnsureDirsCompares(s.fs, base, cfg.syncDirs, faults, now);
      ComparesAppend(s.log, d.log);
      if d.exit.None? {
        DotFileLoopCompares(s.log + d.log, d.fs, home, base, cfg.dotFiles, faults, now);
      }
    }
  }

  /** What follows a log that compares nothing: the dotfile loop's pairs. */
  lemma DotFileLoopCompares(prefix: seq<Action>, fs: Snapshot, home: string, base: string, files: seq<string>, faults: Faults, now: int)
    requires Compares(prefix) == []
    ensures var r := Prepend(prefix, SyncFiles(fs, home, base, files, faults, now));
            && Compares(r.log) <= Pairs(home, base, files)
            && (r.exit.None? ==> Compares(r.log) == Pairs(home, base, files))
  {
    var f := SyncFiles(fs, home, base, files, faults, now);
    SyncFilesExit(fs, home, base, files, faults, now);
    SyncFilesOrder(fs, home, base, files, faults, now);
    ComparesAppend(prefix, f.log);
    var k := FirstMissing(fs.Keys, home, base, files);
    PairsPrefix(home, base, files, if k < |files| then k + 1 else k);
    assert files[..|files|] == files;
  }

  /** The sync never settles on its own: once a file has been copied, the
      next comparison (with a clock that has not gone back) makes the same
      copy again, because the destination is now even newer than the older
      source. */
  lemma SyncOneKeepsCopying(fs: Snapshot, home: string, base: string, file: string, faults: Faults, now: int, later: int)
    requires |SyncOne(fs, home, base, file, faults, now).log| == 2
    requires var c := SyncOne(fs, home, base, file, faults, now).log[1]; fs[c.dst].mtime <= now
    ensures var r := SyncOne(fs, home, base, file, faults, now);
            var again := SyncOne(r.fs, home, base, file, faults, later);
            && |again.log| == 2
            && again.log[1].src == r.log[1].src && again.log[1].dst == r.log[1].dst
  {
    var r := SyncOne(fs, home, base, file, faults, now);
    var s, d := r.log[1].src, r.log[1].dst;
    assert r.fs[s] == fs[s];
    assert r.fs[d].mtime >= fs[d].mtime;
  }
}
