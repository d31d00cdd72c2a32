# projcpp core, modelled in Dafny

projcpp is a code-editor extension that finds a C/C++ compiler, compiles and
runs the file being edited, and discovers and creates C/C++ projects. This
project models the three pieces of it that hold logic of their own, and proves
properties of them:

- `src/runcode.ts`: the `CodeRunner` state machine. It holds `compileCommand`,
  `lastRunCommand` and `initialized`. `init` chooses a compiler. `finishInit`
  marks the runner ready and replays a deferred request. `run` either drops a
  stale command, or defers the request, or sends the compile and run lines to
  a terminal. The file also has the static helpers `getDir` and
  `checkIfCommand`.
- `src/helper.ts`: a second compiler search (`findCompiler`), its own
  `checkIfCommand`, and `compile`, which turns a compiler run into a
  diagnostic string (`''` meaning success).
- `src/ProjectManager.ts`: `getProjects`, a recursive scan that reports the
  directories holding an entry with a `.` in its name, and `createProject`,
  which makes a directory and seeds it with a hello-world `main.cpp`.

Modules, one file each:

- `Host` (host.dfy): the world outside the extension, as inputs. This covers
  `fs.existsSync`, the outcome of every `child_process.exec` call, and the
  user's answers to dialogs. It also has JavaScript truthiness of
  `string | undefined`.
- `Strings` (strings.dfy): the JavaScript string built-ins used by the core,
  namely `includes`, `lastIndexOf` and `replace(/\\/g, '/')`.
- `Platform` (platform.dfy): the Windows check and the locate utility
  (`where` / `whereis`).
- `Discovery` (discovery.dfy): the candidate list that both compiler searches
  try in order, a reference first-match definition, and the fallback dialogs.
- `RunCode` (runcode.dfy): `getDir`, `checkIfCommand` and the discovery done
  by `init`. It also has the runner's transitions as functions on a
  `RunnerState` value, and the `CodeRunner` class, whose methods are proved
  against those functions.
- `Helper` (helper.dfy): `checkIfCommand`, `findCompiler` and `compile`.
- `ProjectManager` (projectmanager.dfy): `getProjects` over a directory-tree
  datatype, and `createProject` as a method of a `FileSystem` class whose
  map of paths it updates.

`run` starts `init` without awaiting it, and `finishInit` starts `run` on the
pending file the same way. The model's operations therefore return the call
they start (`Followup`) instead of making it. `Dispatch` and `Chain` carry
those calls out one after another. The persisted setting
`conf.projcpp.compileCommand` is a field of the runner (`setting`): `init`
reads it and `finishInit` writes it.

The model follows the code as written; in particular:

- `run`'s stale-command branch does not clear the persisted setting.
- That branch also does not remember the file it was asked to run.
- A `run` while the runner is not ready does not start `init`.
- A file path with no directory part is not rejected.
- `.c` files get no separate C mode; the compile line always globs `*.cpp`.
- The output is always `bin/main.exe`.
- Open editors are not saved before compiling.
- There is no external-terminal mode.
- The `cd` into the file's directory (src/runcode.ts:177) is commented out.
  The `mkdir` line targets `<dir>bin`, but the compile and run lines work in
  whatever directory the terminal is in.
- Both files decide "Windows" by the platform name containing "win"
  (src/runcode.ts:21, src/helper.ts:14). That choice picks the locate utility
  and, in `run`, the form of the binary line. The separators of `Uri.fsPath`
  and `path.join` in src/helper.ts follow the real platform instead, so
  `Helper` takes the platform name and uses each rule where the code uses it.
- `init` accepts a saved command when `where`/`whereis` accepts it. `run`
  then re-checks it by running the command itself, not through the locate
  utility. `StaleSavedCommandNeverSettles` proves what that mismatch leads
  to.

## Model

| member | source | states |
|---|---|---|
| `Strings.ForwardSlashes` | src/runcode.ts:146 | the result has the input's length and contains no backslash; every '/' or '\' becomes '/' and every other character stays |
| `Strings.LastIndexOf` | src/runcode.ts:147 | -1 exactly when the character is absent; otherwise the position of an occurrence with none after it |
| `RunCode.GetDir` | src/runcode.ts:145-148 | the result has no backslash and is a prefix of the normalised path; it is '' exactly when the path has neither '/' nor '\'; otherwise it ends in '/' and no '/' follows it in the normalised path |
| `RunCode.GetDirIdempotent` | src/runcode.ts:145-148 | `getDir(getDir(f)) == getDir(f)` for every `f` |
| `RunCode.CheckIfCommand` | src/runcode.ts:135-143 | the command counts as usable exactly when `exec` resolves and writes nothing to stderr |
| `RunCode.ProbeChainIsFirstMatch` | src/runcode.ts:36-51 | the `g++` / `gcc` / x86 CodeBlocks / CodeBlocks chain equals the first match over that fixed candidate list, so later candidates play no part |
| `RunCode.Discover` | src/runcode.ts:28-113 | a saved command that exists or that the locate utility accepts is taken as is; without one, a passing candidate is taken; `init` gives up exactly when no candidate passes and the dialogs are backed out of |
| `RunCode.DiscoverFirstMatch` | src/runcode.ts:36-109 | without a usable saved command the first passing candidate is chosen; with none, a picked executable is taken verbatim and an extraction gives `<folder>/mingw64/bin/g++.exe` |
| `RunCode.FinishInitStep` | src/runcode.ts:118-133 | with no command nothing changes; otherwise the command is persisted, the runner becomes ready and the pending request, if any, is replayed; the command and the pending request are never altered |
| `RunCode.InitStep` | src/runcode.ts:24-116 | a cancelled discovery changes nothing (the runner stays not ready); a found command ends ready with that command persisted; the pending request is kept |
| `RunCode.RunStep` | src/runcode.ts:150-184 | a stale path-like command is dropped, the runner is marked not ready and `init` restarts, without recording the file; a not-ready runner records only this file; a ready runner clears the request and sends the launch lines; lines are sent exactly in that last case; the setting is never touched |
| `RunCode.LaunchLines` | src/runcode.ts:178-182 | the `mkdir` line comes first exactly when `<dir>bin` does not exist, followed by the compile line and the binary line |
| `RunCode.CompileLine` | src/runcode.ts:181 | the line quotes the command before `*.cpp -o bin/main.exe` and starts with `&` exactly for PowerShell |
| `RunCode.BinaryLine` | src/runcode.ts:182 | a Windows shell gets a line with backslashes and no '/'; any other shell gets one with '/' and no backslash |
| `RunCode.LatestRequestWins` | src/runcode.ts:158-160 | runs made while not ready leave exactly the last file pending and change nothing else |
| `RunCode.DeferredRequestReplayed` | src/runcode.ts:118-182 | when `init` finds a command that `run` accepts, the pending file is replayed and its launch lines are sent once; the runner ends ready with the request cleared |
| `RunCode.StaleSavedCommandNeverSettles` | src/runcode.ts:152-156 | a saved path-like command that the locate utility accepts but that neither exists nor runs makes run, init and replay return to the starting state after every round; no launch line is ever sent for the pending file |
| `RunCode.CodeRunner.constructor` | src/runcode.ts:20-23 | a new runner has no command, nothing pending, is not ready and keeps the given setting; `isWin` holds exactly when the platform name contains "win", as line 21 computes it |
| `RunCode.CodeRunner.OnWindowsOnly` | src/runcode.ts:20-23 | the same new runner, with `isWin` holding for "win32" alone |
| `RunCode.CodeRunner.Init` | src/runcode.ts:24-116 | the new state and the started call are those of `InitStep`; the invariant "ready only with a command" is kept |
| `RunCode.CodeRunner.FinishInit` | src/runcode.ts:118-133 | the new state and the started call are those of `FinishInitStep` |
| `RunCode.CodeRunner.Run` | src/runcode.ts:150-184 | the new state, the started call and the lines sent are those of `RunStep`; the invariant is kept |
| `Platform.DarwinTakenForWindows` | src/runcode.ts:21 | the check as written takes macOS ("darwin") for Windows |
| `Platform.IsWindowsOnlyOnWindows` | src/runcode.ts:21 | the corrected check holds among Node's platform names for "win32" alone, and agrees with the written check on every platform except "darwin" |
| `Discovery.ChainIsFirstMatch` | src/helper.ts:29-44 | the `g++` / `gcc` / x86 CodeBlocks / CodeBlocks if/else chain, in that order, gives the same command as the first-match reference, and nothing when no probe passes |
| `Discovery.FirstMatchIsFirst` | src/helper.ts:29-44 | the reference search yields the command of a passing candidate with no passing candidate before it, and yields nothing exactly when none passes |
| `Discovery.Fallback` | src/helper.ts:45-106 | an executable is picked exactly when the first prompt chooses one and the picker returns a file, and it is returned verbatim; an extraction happens exactly when the download branch is followed to a chosen folder |
| `Discovery.BackedOutCases` | src/helper.ts:47-105 | the fallback gives nothing exactly when the first prompt is dismissed, the picker is cancelled, extraction is declined or the folder picker is cancelled; whether the download succeeded makes no difference |
| `Helper.CheckIfCommand` | src/helper.ts:14-25 | false exactly when `exec` of the locate utility rejects, that utility being `where` when the platform name contains "win" and `whereis` otherwise; stderr output does not matter |
| `Helper.LenientProbe` | src/helper.ts:17-25 | whatever runcode.ts's probe accepts this one accepts; they differ exactly on a locate run that resolves with output on stderr |
| `Helper.FindCompiler` | src/helper.ts:27-108 | the first passing candidate's command; with none, the picked executable, the extracted compiler's path, or '' when the user backs out |
| `Helper.FindCompilerEmptyOnBackOut` | src/helper.ts:47-105 | with no passing candidate, a dismissed prompt, cancelled picker, declined extraction or cancelled folder picker gives '' |
| `Helper.SameChoiceAsInit` | src/helper.ts:27-107 | with no saved command, on any platform but "win32", with the same platform detection for both, and locate runs that write nothing to stderr, `findCompiler` chooses the command `init` chooses, and '' where `init` gives up |
| `Helper.ExtractedCompilerAsInInit` | src/helper.ts:101 | on any platform but "win32" the extracted compiler's path is the one `init` builds |
| `Helper.Compile` | src/helper.ts:114-124 | the result is the stderr of the compile run in `dir`, whether `exec` resolved or rejected; the output path uses '\' on "win32" alone |
| `Helper.CompileSuccessIsClean` | src/helper.ts:114-124 | '' comes back exactly when the run wrote nothing to stderr, whether it resolved or rejected |
| `ProjectManager.Projects` | src/ProjectManager.ts:30-50 | the scanned directory is reported exactly when it is readable and one of its entries has a '.' in its name |
| `ProjectManager.ProjectsAreReported` | src/ProjectManager.ts:30-50 | a path is reported exactly when its directory has a dotted entry and every directory above it was searched: readable, and either not reported or the root of the first call |
| `ProjectManager.NestedReportedIsLeaf` | src/ProjectManager.ts:33-37 | nothing below a reported nested directory is reported |
| `ProjectManager.RootKeepsSearching` | src/ProjectManager.ts:30-46 | the first call reports the same paths below the root whether or not the root itself is reported; a nested call that reports its directory reports nothing else |
| `ProjectManager.OnlyDirectoriesSearched` | src/ProjectManager.ts:41-46 | every reported path leads, at every level, through entries that `lstat` calls directories, each of them readable, down to a readable directory |
| `ProjectManager.MakeDirectories` | src/ProjectManager.ts:17 | fails exactly when the path or a directory above it is a file; otherwise every directory along the path exists afterwards, nothing that existed changes, and nothing else is added |
| `ProjectManager.NewProjectWritten` | src/ProjectManager.ts:16-18 | on a new path, the path becomes a directory holding `main.cpp` with the hello-world sample, everything that existed is unchanged, and nothing is added but the directories along the path and `main.cpp` |
| `ProjectManager.ExistingPathUntouched` | src/ProjectManager.ts:20-22 | on an existing path nothing changes: it fails on a file and creates nothing for a directory |
| `ProjectManager.FileSystem.CreateProject` | src/ProjectManager.ts:15-23 | on success the path is a directory, nothing that existed changes, nothing is added but the directories along the path and `main.cpp`, and `main.cpp` is written exactly when the path was new; on failure nothing changes |

## Left out

- The HTTPS download of the toolchain and its 7-Zip extraction (src/runcode.ts:69-109, src/helper.ts:62-101) are network and foreign-library I/O. Only their outcome is modelled: whether the download succeeded, which the code ignores, and the folder chosen.
- The PATH registry edit through `setx` and the notice after it (src/runcode.ts:121-127, src/helper.ts:110-112) are shell side effects.
- Terminal creation and `term.show()` (src/runcode.ts:163, 183) are left out. The terminal is modelled only as the lines sent to it.
- Shell detection from the editor configuration (src/runcode.ts:167-174) is left out: `run` takes the resolved shell name as an input.
- Information messages and `console` logging are left out.
- `vscode.openFolder` in `createProject` is left out.
- src/ProjectPanel.ts, src/SidebarProvider.ts, src/extension.ts, src/creator.ts and webviews/globals.d.ts are not part of this model. They are webview panels, command registration, UI prompts and type declarations.
- Concurrency is not modelled. `init` runs as one step, so a `run` cannot arrive during one of its awaits. The state "command set but not yet ready", which exists briefly while `finishInit` awaits the configuration update, is therefore not reached.
- `RunCode.CodeRunner.Init` requires that the runner is not ready. The source calls `init` only from the constructor and right after `run` clears `initialized`.
- `ProjectManager.Projects` gives the set of reported paths, not the order of the callbacks, which depends on when the asynchronous `readdir`/`lstat` callbacks fire. Paths are the sequences of entry names below the scanned directory, not `joinPath`/`fsPath` strings.
- `ProjectManager.Projects`: an `lstat` error is not modelled, since the tree says what each entry is. A `readdir` error makes that directory report nothing, where the source throws from the callback.
- `ProjectManager.NestedReportedIsLeaf` requires that no two entries of a directory share a name, as on a real filesystem.
- `ProjectManager.MakeDirectories` models `ENOTDIR` and `EEXIST` as one error.
- `Helper.ExtractedCompiler` does not model the normalisation `Uri.joinPath` and `fsPath` apply, such as the drive letter's case and doubled separators.

## Findings

| source | as written | input that shows it | evidently intended | confidence | as-written member | corrected member |
|---|---|---|---|---|---|---|
| src/runcode.ts:21 | Windows is detected as `os.platform().indexOf('win') > -1` (src/helper.ts:14 does the same) | platform "darwin" contains "win", so macOS uses `where` to probe and `.\bin\main.exe` to run | Windows alone, i.e. platform "win32" | medium; not executed | `Platform.DarwinTakenForWindows` | `Platform.IsWindowsOnlyOnWindows` (the runner's `OnWindowsOnly` constructor uses `Platform.IsWindows`) |
