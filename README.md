# dotfilesync: the reconciliation engine, modelled in Dafny

dotfilesync keeps a user's dotfiles in step with their copies in a sync
directory under the home directory. This project models the part of it that
decides and acts:

- `CompareFiles` turns two paths into a label. The label is "syncfile",
  "dotfile" or "synced", and it comes from modification times alone.
- `CopyFile` copies one regular file over another.
- `CopyDir` checks a source directory.
- `CreateDirIfNotExist` is a guarded, single-level mkdir.
- The root command's `Run` builds the sync paths, creates the directories,
  and then, for each configured dotfile, compares the live copy with the
  backup copy and copies one side over the other.

The filesystem is a map from path strings to nodes (`Fs.Node`). A node is a
regular file (bytes and a modification time), a directory or a special file.
Each kind carries a modification time, because `ModTime()` is read from
whatever `os.Stat` returns. `os.Stat` fails exactly on the paths that are not
in the map. Every other operating-system failure comes from an oracle,
`Fs.Faults`, keyed by the path of the failing call:

- a refused `os.Open`;
- a refused `os.Create`;
- an `io.Copy` that stops after a given number of bytes;
- a failing `os.ReadDir`;
- a failing `os.Mkdir`.

The time at which a file or directory is written is the parameter `now`.

Modules:

- `Fs` (fs.dfy) holds the nodes, errors, stat, the oracle and the parent
  check that `os.Mkdir` and `os.Create` need.
- `Sync` (sync.dfy) is package `dfs`. `CompareFiles` and `CopyDir` are
  functions of a snapshot. `CopyFile` and `CreateDirIfNotExist` are methods
  of the `FileSystem` class. They are written step by step like the Go code
  and proved equal to the functions `CopyFileEffect` and `CreateDirEffect`.
- `Root` (root.dfy) is the `Run` closure of the root command.
  - `RootCommand` holds the package variables `syncBaseDir`, `dotFilePaths`
    and `sync`.
  - `RootCommand.Run` runs the two loops as methods and is proved equal to
    `RunSpec`.
  - `RunSpec` is built from `Scaffold`, `EnsureDirs` (the sync-directory
    loop) and `SyncFiles` (the dotfile loop, one `SyncOne` per dotfile).
  - Besides the final filesystem and the exit, a run yields the log of the
    engine calls it made, in order (`Root.Action`).

`main.go` repeats `dfs/sync.go` and the root command almost word for word,
and its `Run` calls the `dfs` functions. The members below therefore model
both copies, and some rows cite the `main.go` lines.

What the code does, traced exactly, differs from what its comments and the
project's stated aims suggest. The model follows the code:

- There is no content hashing. Two files with different bytes and the same
  time are "synced".
- A missing live or backup file is an error that ends the run. It does not
  cause a restore.
- `CopyDir` copies nothing and has no exclusion list.
- The copy direction is the opposite of "newer wins". `Run` passes the live
  path as `CompareFiles`' first argument and then copies the side with the
  strictly earlier time over the side with the later time (`Root.SyncOne`).
  The destination then gets the current time, so the next comparison of that
  dotfile makes the same copy again (`Root.SyncOneKeepsCopying`).
- `CopyFile(p, p)` empties `p`. `os.Create` truncates the file that `io.Copy`
  then reads (`Sync.CopyFileOntoItself`). `Run` never passes the same path
  string twice, because a live path and its backup path always differ as
  strings (`Root.LiveAndBackupDiffer`). With `SyncBaseDir` set to "" or "."
  the two strings name the same file; the two times are then equal, the
  label is "synced" and no copy is made. The model does not normalise paths,
  so it does not see this aliasing.
- `CreateDirIfNotExist` calls `os.Mkdir` only when the stat fails with
  not-exist. A path under an existing non-directory fails to stat with
  not-a-directory instead, so the call returns success without creating
  anything (`Root.ScaffoldOverFile`).
- A sync directory is `syncBaseDir + dir` with no separator. When
  `SyncBaseDir` is non-empty and does not end in '/', an entry such as "nvim"
  names a sibling of the sync base, not a directory inside it. An empty or
  '/'-terminated `SyncBaseDir` makes the base end in '/', and the entry then
  lands inside the base (`Root.SyncDirOutsideBase`).

## Model

| member | source | states |
|---|---|---|
| `Fs.Stat` | dfs/sync.go:71 | Succeeds exactly on the paths present, with their node. A failed stat names its path. `os.IsNotExist` holds of it exactly when the path is absent and no ancestor of it exists as a non-directory; such an ancestor gives the not-a-directory error (ENOTDIR) instead. |
| `Fs.ParentIsDir` | dfs/sync.go:72 | The condition `os.Mkdir` and `os.Create` need for a new entry: its parent is the working directory, the root, or an existing directory. |
| `Sync.CompareFiles` | dfs/sync.go:92-119 | A path that fails to stat gives its stat error and no label; the first path is checked first. When both stat, the label is "syncfile" iff the first time is strictly earlier, "dotfile" iff the second is, and "synced" iff they are equal. So the `IsNotExist(syncErr)` branch never decides anything. |
| `Sync.CompareFilesSwap` | dfs/sync.go:109-117 | Swapping the arguments swaps "syncfile" and "dotfile", keeps "synced", and fails for one order exactly when it fails for the other. |
| `Sync.CompareFilesIgnoresContent` | dfs/sync.go:99-118 | Replacing either node by any node with the same time (other bytes, or another kind) leaves the result unchanged. |
| `Sync.CompareFilesEqualTimesDifferentBytes` | main.go:244-253 | Any two regular files with different bytes and equal times, in any filesystem, compare as "synced". |
| `Sync.CompareFilesLabels` | dfs/sync.go:93-97 | A successful comparison returns one of the three label constants. |
| `Sync.CopyDir` | dfs/sync.go:45-63 | Succeeds iff the source exists, is a directory and can be listed. Otherwise it gives the stat error, the not-a-directory error or the read error, in that order. As a function of the snapshot it creates and writes nothing. |
| `Sync.CopyDirIgnoresDestination` | main.go:181-199 | The destination argument has no influence on the result. |
| `Sync.CanCreate` | dfs/sync.go:30-33 | When `os.Create` succeeds: a non-empty path, not refused, that is an existing non-directory (which it truncates, a special file included) or a new entry whose parent is a directory. |
| `Sync.CopyFileEffect` | dfs/sync.go:13-43 | A source that fails to stat gives its stat error and changes nothing; so do a non-regular source, a refused open and a refused create. Success happens iff all steps pass, and the only entry it writes is the destination. That entry becomes a regular file with the source's bytes and time `now`, or stays as it was if special. An interrupted copy leaves a prefix of the source's bytes. No other path changes, and a directory destination is never touched. |
| `Sync.FileSystem.CopyFile` | main.go:149-179 | The stat, open, create-with-truncate and copy sequence yields exactly the outcome and the new filesystem of `CopyFileEffect`. |
| `Sync.CopyFileCopiesBytes` | dfs/sync.go:23-42 | After a successful copy between two different paths onto a non-special destination, the destination holds exactly the source's bytes, and the source is unchanged. |
| `Sync.CopyFileOntoItself` | dfs/sync.go:23-37 | For any filesystem and faults, a successful copy of a path onto itself leaves that path an empty regular file with time `now` and changes nothing else. It succeeds whenever the path is a regular file and no open, create or copy fault hits it. |
| `Sync.CreateDirEffect` | dfs/sync.go:70-78 | When the stat does not fail with not-exist, this is a no-op success: the path exists, as anything, or lies under a non-directory. Otherwise it succeeds iff the parent is an existing directory and mkdir is not refused. It then adds exactly that one directory, creates no ancestor and changes no other entry. After a success the path exists or lies under a non-directory. A failure changes nothing. |
| `Sync.FileSystem.CreateDirIfNotExist` | main.go:206-214 | The stat, then mkdir only on a not-exist error, yields exactly the outcome and state of `CreateDirEffect`. |
| `Sync.CreateDirIdempotent` | dfs/sync.go:70-78 | After a successful call, a second call at any time and with any faults succeeds and changes nothing. |
| `Root.Dispatch` | cmd/root.go:82-93 | A copy is made exactly for the labels "dotfile" and "syncfile", always between the live and the backup path; "dotfile" writes the live path and "syncfile" the backup. Any other label copies nothing. |
| `Root.SyncOne` | cmd/root.go:70-93 | Each dotfile is first compared with the live path `home/file` first and the backup path `syncBase/file` second. A missing side exits with that side's stat error, and nothing changes. Equal times copy nothing. Otherwise exactly one copy is made, between the two paths, from the strictly older side to the strictly newer one, with the effect of `CopyFileEffect`, and its error does not exit. No path is created or removed, no directory is touched, and no other path changes. |
| `Root.SyncOneKeepsKinds` | cmd/root.go:82-93 | One iteration keeps the set of paths and never turns a directory into a file or a file into a directory. |
| `Root.SyncOneKeepsCopying` | main.go:86-103 | After a copy, with a clock that has not gone back, the next comparison of the same dotfile copies in the same direction again. |
| `Root.SyncFiles` | cmd/root.go:70-94 | Reference definition of the dotfile loop: one `SyncOne` per dotfile in list order, stopping at the first one that exits and concatenating the logs. |
| `Root.SyncFilesFrame` | cmd/root.go:70-94 | The dotfile loop neither creates nor removes paths and never changes a directory. It changes only the live and backup paths of listed dotfiles. |
| `Root.SyncFilesExit` | cmd/root.go:76-80 | The loop exits iff some dotfile has a missing side. It exits at the first such dotfile, with the stat error of its live path if that is missing and of its backup path otherwise. Copy errors never stop it. |
| `Root.SyncFilesOrder` | cmd/root.go:70-94 | The loop's comparisons are, in list order and live path first, those of the dotfiles up to and including the first one with a missing side, and all of them when none is missing. |
| `Root.EnsureDirs` | cmd/root.go:57-66 | Reference definition of the sync-directory loop: one `CreateDirEffect` per entry at `syncBase + dir`, in list order, stopping at the first failure. |
| `Root.EnsureDirsEffect` | cmd/root.go:57-66 | The sync-directory loop adds only new directories, at paths `syncBase + dir`, and changes no existing entry. When it does not exit, every `syncBase + dir` exists or lies under a non-directory, where the guarded mkdir is skipped. |
| `Root.EnsureDirsLog` | main.go:67-76 | The loop makes at most one `CreateDirIfNotExist` call per entry, the i-th at `syncBase + dirs[i]`, so in list order. |
| `Root.EnsureDirsExit` | cmd/root.go:57-66 | The loop runs through the whole list iff every call passes. Otherwise its last call is the first failed one, and it exits with that call's error. |
| `Root.SyncDirOutsideBase` | cmd/root.go:58 | `syncBase + dir`, for an entry not starting with '/', extends the base's name. For a base not ending in '/' it does not lie inside the base directory; for a base ending in '/' it lies strictly inside the directory the base names. |
| `Root.LiveAndBackupDiffer` | cmd/root.go:71-72 | `home/file` and `home/syncBaseDir/file` are never the same string. |
| `Root.Scaffold` | cmd/root.go:41-53 | Reference definition of the two base-directory creations: the sync base, then the XDG base, exiting on the first failure. |
| `Root.RunScaffoldsFirst` | cmd/root.go:41-53 | The first call ensures `home/syncBaseDir` and the second `home/syncBaseDir/xdgBaseDir`. A failure of the first exits with the filesystem untouched. A failure of the second exits after those two calls only. |
| `Root.ScaffoldOverFile` | dfs/sync.go:71 | A sync base that exists as a non-directory passes both scaffold calls with nothing changed: the XDG base's stat fails with not-a-directory, so no mkdir is tried and the run goes on. |
| `Root.RunWithoutSync` | cmd/root.go:56 | Without the sync flag, the only changes are new directories at the two base paths. Existing entries stay as they were, and nothing is compared or copied. |
| `Root.RunSpec` | cmd/root.go:29-96 | Reference definition of the whole run: `Scaffold`; then, with the sync flag, `EnsureDirs` and, if that does not exit, `SyncFiles`, with the logs concatenated. |
| `Root.RunEffect` | cmd/root.go:29-96 | A run never removes a path. It creates only directories, at the two bases or at `syncBase + dir` paths, and never changes an existing directory. It changes an existing file only when that file is the live or the backup copy of a listed dotfile. |
| `Root.RunComparesInOrder` | main.go:80-90 | A run that stops before the dotfile loop compares nothing. Otherwise its comparisons are a prefix of the (live, backup) pairs of the dotfile list, in order, and the whole list when the run does not exit. |
| `Root.RootCommand.Run` | cmd/root.go:29-96 | Sets `syncBaseDir` to `home/syncBaseDir`. Its exit, final filesystem and log are those of `RunSpec`. It sets `dotFilePaths` to the configured dotfiles exactly when the run reaches the dotfile loop. |
| `Root.RootCommand.CreateBaseDirs` | cmd/root.go:41-53 | The two base-directory creations yield exactly `Scaffold`. |
| `Root.RootCommand.CreateSyncDirs` | cmd/root.go:57-66 | The `SyncDirs` loop yields exactly `EnsureDirs`. |
| `Root.RootCommand.SyncDotFiles` | cmd/root.go:68-94 | The `dotFilePaths` loop yields exactly `SyncFiles`. |
| `Root.RootCommand.SyncDotFile` | cmd/root.go:71-93 | One iteration (compare, then the `switch` on the label) yields exactly `SyncOne`. |

## Left out

- Configuration and process control are left out: `initConfig`, `Execute`, `init`, the viper calls and `os.UserHomeDir`. They are library plumbing. The configuration, the home directory and the sync flag are inputs, and `os.Exit(1)` is the returned `exit == Some(error)`. A failing `viper.Unmarshal` or home-directory lookup is not modelled.
- `DotFilesIgnore` is carried in `Root.Config` but, as in the code, never used.
- Console output (`fmt.Println`/`Printf`) is presentation only. So is the listing that `CopyDir` prints, and cmd/version.go, which only prints a constant.
- Error values keep only their kind and the path. The wording is dropped, and `CopyFile`'s "not a regular file" message names the full path rather than the base name.
- Byte streaming, handle closing, the mode bits 0755 and symbolic links are not modelled. A link counts as the kind of node it resolves to.
- Paths are not normalised: no trailing slashes, "//", "." or "..". In particular a `SyncBaseDir` (or home directory) ending in '/' makes the model's first `CreateDirIfNotExist` look for the parent of "home/.sync/" at "home/.sync", find nothing and fail, where `os.Mkdir("home/.sync/")` would succeed; the model then exits with that failure.
- Creating an entry does not update the parent directory's modification time, and real clocks are replaced by `now`.
- `Fs.Faults`: a failure is keyed by path, so one call that fails on a path fails on every call with that path during a run. Failures that depend on the order of calls are not modelled.
- `Fs.Stat` fails only on absent paths, with not-exist or not-a-directory. Permission errors (EACCES) and other stat failures are not modelled; with them `CreateDirIfNotExist` would also return success without a mkdir.
- The snapshot is a flat map, so it can hold an entry whose ancestor is absent. `Fs.Stat` answers not-a-directory for an absent path when any ancestor is a non-directory, even if a shorter ancestor is absent; a real filesystem cannot be in that state.
- Named pipes are not modelled as nodes. `os.Create` on a FIFO without a reader blocks until one opens it, and writing to it updates its time; the model has no blocking, and a special destination keeps its node unchanged.
- Sockets are not modelled as nodes: `os.Create` on a UNIX socket fails (ENXIO), which the model can only express as a `faults.create` entry for that path.
- Concurrent changes to the filesystem by other processes are not modelled; every call sees the current snapshot.
