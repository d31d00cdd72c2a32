/** src/runcode.ts: the `CodeRunner` that finds a compiler, remembers a run
    request made before it is ready, and sends the compile and run lines to
    a terminal; plus its static helpers `getDir` and `checkIfCommand`. */
module RunCode {
  import opened Host
  import Strings
  import Platform
  import Discovery

  // ----- static helpers -----

  /** `getDir`: turn every backslash into '/', then keep everything up to and
      including the last '/'. */
  function GetDir(file: string): (r: string)
    ensures '\\' !in r
    ensures r <= Strings.ForwardSlashes(file)
    ensures r == "" <==> '/' !in file && '\\' !in file
    ensures r != "" ==> r[|r| - 1] == '/'
    ensures '/' !in Strings.ForwardSlashes(file)[|r|..]
  {
    var normal := Strings.ForwardSlashes(file);
    SlashSurvives(file);
    UpToLastSlash(normal);
    normal[..Strings.LastIndexOf(normal, '/') + 1]
  }

  /** Cutting a string after its last '/' keeps a prefix that is empty
      exactly when there is no '/', ends in '/' otherwise, and leaves no '/'
      behind it; a character absent from the string is absent from the cut. */
  lemma UpToLastSlash(s: string)
    ensures var r := s[..Strings.LastIndexOf(s, '/') + 1];
      && r <= s
      && (r == "" <==> '/' !in s)
      && (r != "" ==> r[|r| - 1] == '/')
      && '/' !in s[|r|..]
      && ('\\' !in s ==> '\\' !in r)
  {
    var k := Strings.LastIndexOf(s, '/');
    var r := s[..k + 1];
    assert forall i :: 0 <= i < |r| ==> r[i] == s[i];
    var rest := s[k + 1..];
    assert forall j :: 0 <= j < |rest| ==> rest[j] == s[k + 1 + j];
  }

  /** The normalised path has a '/' exactly when the path has a '/' or a '\'. */
  lemma SlashSurvives(file: string)
    ensures '/' in Strings.ForwardSlashes(file) <==> '/' in file || '\\' in file
  {
    var normal := Strings.ForwardSlashes(file);
    if i :| 0 <= i < |file| && (file[i] == '/' || file[i] == '\\') {
      assert normal[i] == '/';
    }
    if i :| 0 <= i < |normal| && normal[i] == '/' {
      assert file[i] == '/' || file[i] == '\\';
    }
  }

  /** A directory prefix is its own directory: `getDir` is idempotent. */
  lemma GetDirIdempotent(file: string)
    ensures GetDir(GetDir(file)) == GetDir(file)
  {
    var d := GetDir(file);
    NoBackslashUnchanged(d);
    if d != "" {
      assert d[..Strings.LastIndexOf(d, '/') + 1] == d[..|d|];
    }
  }

  /** A string without backslashes is left as it is by the normalisation. */
  lemma NoBackslashUnchanged(s: string)
    requires '\\' !in s
    ensures Strings.ForwardSlashes(s) == s
  {
    var n := Strings.ForwardSlashes(s);
    assert forall i :: 0 <= i < |s| ==> n[i] == s[i];
  }

  /** The static `checkIfCommand`: the command counts as usable only when
      `exec` resolves and writes nothing to stderr. */
  function CheckIfCommand(host: Host, command: string): (ok: bool)
    ensures ok <==> host.Run(command).Finished? && host.Run(command).stderr == ""
  {
    match host.Run(command)
    case Threw(_) => false
    case Finished(_, stderr) => |stderr| == 0
  }

  /** `checkIfCommand(where + ' ' + name)` */
  predicate Locates(host: Host, isWin: bool, name: string) {
    CheckIfCommand(host, Platform.Where(isWin) + " " + name)
  }

  // ----- compiler discovery (init, lines 24-116) -----

  /** Whether a candidate's probe passes, by this file's rules. */
  predicate Passes(host: Host, isWin: bool, p: Discovery.Probe) {
    match p
    case Locate(name) => Locates(host, isWin, name)
    case DirectoryExists(path) => host.Exists(path)
  }

  /** The outcome of every candidate's probe, by this file's rules. */
  function Probed(host: Host, isWin: bool): seq<bool> {
    Discovery.Probed(p => Passes(host, isWin, p))
  }

  /** The if/else chain of `init` after the saved command is rejected. */
  function ProbeChain(host: Host, isWin: bool): Option<string> {
    if Locates(host, isWin, "g++") then Some("g++")
    else if Locates(host, isWin, "gcc") then Some("gcc")
    else if host.Exists(Discovery.X86CodeBlocks) then Some(Discovery.X86CodeBlocksCompiler)
    else if host.Exists(Discovery.CodeBlocks) then Some(Discovery.CodeBlocksCompiler)
    else None
  }

  /** The chain is the first match over the fixed candidate list: the first
      candidate whose probe passes wins and later ones play no part. */
  lemma ProbeChainIsFirstMatch(host: Host, isWin: bool)
    ensures ProbeChain(host, isWin) == Discovery.FirstMatch(Probed(host, isWin))
  {
    Discovery.ChainIsFirstMatch(Probed(host, isWin));
  }

  /** Whether `init` takes the saved command as it is: it is set, and it
      exists on disk or the locate utility accepts it. */
  predicate SavedUsable(saved: Option<string>, host: Host, isWin: bool) {
    Truthy(saved) && (host.Exists(saved.value) || Locates(host, isWin, saved.value))
  }

  /** The path `init` gives the compiler extracted into `folder`. */
  function ExtractedCompiler(folder: string): string {
    folder + "/mingw64/bin/g++.exe"
  }

  /** The command `init` settles on before calling `finishInit`, or None when
      it returns without calling it (every dialog cancellation). */
  function Discover(saved: Option<string>, host: Host, isWin: bool, ui: Answers): (r: Option<string>)
    ensures SavedUsable(saved, host, isWin) ==> r == saved
    ensures !SavedUsable(saved, host, isWin) && ProbeChain(host, isWin).Some? ==> r == ProbeChain(host, isWin)
    ensures r.None? <==>
      !SavedUsable(saved, host, isWin) && ProbeChain(host, isWin).None? && Discovery.Fallback(ui).BackedOut?
  {
    if SavedUsable(saved, host, isWin) then saved
    else if ProbeChain(host, isWin).Some? then ProbeChain(host, isWin)
    else match Discovery.Fallback(ui)
      case Picked(path) => Some(path)
      case Extracted(folder) => Some(ExtractedCompiler(folder))
      case BackedOut => None
  }

  /** Without a usable saved command, `init` settles on the first candidate
      whose probe passes; the fallback is reached only when none does, and
      then a picked executable is taken verbatim and an extraction gives
      `<folder>/mingw64/bin/g++.exe`. */
  lemma DiscoverFirstMatch(saved: Option<string>, host: Host, isWin: bool, ui: Answers)
    requires !SavedUsable(saved, host, isWin)
    ensures forall i | 0 <= i < |Discovery.Candidates| && Probed(host, isWin)[i]
      && (forall j :: 0 <= j < i ==> !Probed(host, isWin)[j])
      :: Discover(saved, host, isWin, ui) == Some(Discovery.Candidates[i].command)
    ensures (forall i :: 0 <= i < |Discovery.Candidates| ==> !Probed(host, isWin)[i]) ==>
      Discover(saved, host, isWin, ui) ==
        match Discovery.Fallback(ui)
        case Picked(path) => Some(path)
        case Extracted(folder) => Some(ExtractedCompiler(folder))
        case BackedOut => None
  {
    ProbeChainIsFirstMatch(host, isWin);
    Discovery.FirstMatchIsFirst(Probed(host, isWin));
  }

  // ----- the runner's state and its transitions -----

  /** The fields of a `CodeRunner`, with the persisted setting
      'conf.projcpp.compileCommand' that `init` reads and `finishInit` writes. */
  datatype RunnerState = RunnerState(
    compileCommand: Option<string>,
    lastRunCommand: Option<string>,
    initialized: bool,
    setting: Option<string>)
  {
    /** The runner is only ever marked initialized with a command in hand. */
    predicate Valid() {
      initialized ==> Truthy(compileCommand)
    }
  }

  /** The call an operation starts without awaiting it: `run` starts `init`
      when it drops a stale command, `finishInit` starts `run` on the
      pending request. */
  datatype Followup = Done | StartInit | Replay(file: string)

  /** The new state, the call started, and the lines sent to the terminal. */
  datatype Step = Step(state: RunnerState, next: Followup, sent: seq<string>)

  /** `finishInit`: with a command in hand, persist it, mark the runner
      ready and replay the pending request, if any. */
  function FinishInitStep(s: RunnerState): (r: Step)
    ensures r.sent == []
    ensures !Truthy(s.compileCommand) ==> r == Step(s, Done, [])
    ensures Truthy(s.compileCommand) ==> r.state.initialized && r.state.setting == s.compileCommand
    ensures r.state.compileCommand == s.compileCommand && r.state.lastRunCommand == s.lastRunCommand
    ensures r.next != StartInit
    ensures r.next.Replay? <==> Truthy(s.compileCommand) && Truthy(s.lastRunCommand)
    ensures r.next.Replay? ==> Some(r.next.file) == s.lastRunCommand
    ensures s.Valid() ==> r.state.Valid()
  {
    if !Truthy(s.compileCommand) then Step(s, Done, [])
    else
      var ready := s.(initialized := true, setting := s.compileCommand);
      Step(ready, if Truthy(s.lastRunCommand) then Replay(s.lastRunCommand.value) else Done, [])
  }

  /** `init`: discover a command and hand over to `finishInit`; when every
      option is cancelled nothing changes, so the runner stays as it was. */
  function InitStep(s: RunnerState, host: Host, isWin: bool, ui: Answers): (r: Step)
    ensures r.sent == [] && r.state.lastRunCommand == s.lastRunCommand && r.next != StartInit
    ensures Discover(s.setting, host, isWin, ui).None? ==> r == Step(s, Done, [])
    ensures Truthy(Discover(s.setting, host, isWin, ui)) ==>
      r.state.initialized && r.state.compileCommand == r.state.setting == Discover(s.setting, host, isWin, ui)
    ensures s.Valid() && !s.initialized ==> r.state.Valid()
  {
    match Discover(s.setting, host, isWin, ui)
    case None => Step(s, Done, [])
    case Some(c) => FinishInitStep(s.(compileCommand := Some(c)))
  }

  /** A command that names a path: `includes('/') || includes('\\')`. */
  predicate PathLike(command: string) {
    '/' in command || '\\' in command
  }

  /** The check at the head of `run`: a path-like command that neither exists
      on disk nor runs cleanly by itself is stale. */
  predicate Invalidates(command: Option<string>, host: Host) {
    && Truthy(command)
    && PathLike(command.value)
    && !host.Exists(command.value)
    && !CheckIfCommand(host, command.value)
  }

  /** How a JavaScript template literal renders `compileCommand`. */
  function Template(command: Option<string>): string {
    if command.Some? then command.value else "undefined"
  }

  /** The line that creates `<dir>bin`. */
  function MkdirLine(dir: string): string {
    "mkdir \"" + dir + "bin\""
  }

  /** The compile line: the quoted command on every `.cpp` file, writing
      `bin/main.exe`, with PowerShell's call operator `&` in front. */
  function CompileLine(command: string, powerShell: bool): (line: string)
    ensures Strings.Includes(line, "\"" + command + "\" *.cpp -o bin/main.exe")
    ensures line[0] == '&' <==> powerShell
  {
    var call := "\"" + command + "\" *.cpp -o bin/main.exe";
    var line := (if powerShell then "&" else "") + " " + call;
    assert line[|line| - |call|..] == call;
    SuffixIncluded(line, |line| - |call|, call);
    line
  }

  /** A string includes each of its suffixes. */
  lemma {:induction false} SuffixIncluded(s: string, k: nat, sub: string)
    requires k <= |s| && s[k..] == sub
    ensures Strings.Includes(s, sub)
    decreases k
  {
    if k > 0 {
      assert s[1..][k - 1..] == s[k..];
      SuffixIncluded(s[1..], k - 1, sub);
    }
  }

  /** The line that runs the binary: `.\bin\main.exe` for a Windows shell,
      `./bin/main.exe` otherwise, never mixing the two separators. */
  function BinaryLine(windowsShell: bool): (line: string)
    ensures windowsShell <==> '\\' in line
    ensures windowsShell <==> '/' !in line
  {
    (if windowsShell then ".\\" else "./") + "bin" + (if windowsShell then "\\" else "/") + "main.exe"
  }

  /** What `run` sends once the runner is ready. */
  function LaunchLines(dir: string, command: string, host: Host, isWin: bool, shell: string): (lines: seq<string>)
    ensures |lines| == if host.Exists(dir + "bin") then 2 else 3
    ensures !host.Exists(dir + "bin") ==> lines[0] == MkdirLine(dir)
    ensures lines[|lines| - 2] == CompileLine(command, Strings.Includes(shell, "powershell"))
    ensures lines[|lines| - 1] ==
      BinaryLine(isWin && (Strings.Includes(shell, "powershell") || Strings.Includes(shell, "cmd")))
  {
    var powerShell := Strings.Includes(shell, "powershell");
    var cmd := Strings.Includes(shell, "cmd");
    (if host.Exists(dir + "bin") then [] else [MkdirLine(dir)])
      + [CompileLine(command, powerShell), BinaryLine(isWin && (powerShell || cmd))]
  }

  /** `run(file)`: drop a stale path-like command and restart `init` (the
      file is not remembered); while not ready, remember only this file;
      otherwise clear the pending request and send the launch lines for the
      file's directory. The persisted setting is never touched. */
  function RunStep(s: RunnerState, file: string, host: Host, isWin: bool, shell: string): (r: Step)
    ensures r.state.setting == s.setting
    ensures Invalidates(s.compileCommand, host) ==>
      r == Step(s.(compileCommand := None, initialized := false), StartInit, [])
    ensures !Invalidates(s.compileCommand, host) && !s.initialized ==>
      r == Step(s.(lastRunCommand := Some(file)), Done, [])
    ensures r.sent != [] <==> !Invalidates(s.compileCommand, host) && s.initialized
    ensures r.sent != [] ==>
      r.state == s.(lastRunCommand := None) && r.next == Done &&
      r.sent == LaunchLines(GetDir(file), Template(s.compileCommand), host, isWin, shell)
    ensures s.Valid() ==> r.state.Valid()
  {
    if Invalidates(s.compileCommand, host) then
      Step(s.(compileCommand := None, initialized := false), StartInit, [])
    else if !s.initialized then
      Step(s.(lastRunCommand := Some(file)), Done, [])
    else
      Step(s.(lastRunCommand := None), Done, LaunchLines(GetDir(file), Template(s.compileCommand), host, isWin, shell))
  }

  /** Carry out one started call. */
  function Dispatch(s: RunnerState, next: Followup, host: Host, isWin: bool, ui: Answers, shell: string): Step {
    match next
    case Done => Step(s, Done, [])
    case StartInit => InitStep(s, host, isWin, ui)
    case Replay(file) => RunStep(s, file, host, isWin, shell)
  }

  /** Follow up to `steps` started calls one after the other, collecting the
      lines sent to the terminal. */
  function Chain(s: RunnerState, next: Followup, host: Host, isWin: bool, ui: Answers, shell: string, steps: nat): Step
    decreases steps
  {
    if steps == 0 || next == Done then Step(s, next, [])
    else
      var first := Dispatch(s, next, host, isWin, ui, shell);
      var rest := Chain(first.state, first.next, host, isWin, ui, shell, steps - 1);
      Step(rest.state, rest.next, first.sent + rest.sent)
  }

  /** `run` on each file in turn, in the same host. */
  function RunAll(s: RunnerState, files: seq<string>, host: Host, isWin: bool, shell: string): RunnerState
    decreases |files|
  {
    if files == [] then s
    else RunAll(RunStep(s, files[0], host, isWin, shell).state, files[1..], host, isWin, shell)
  }

  // ----- properties of the runner across calls -----

  /** Requests made while the runner is not ready are not queued: only the
      latest one is remembered, and nothing else changes. */
  lemma {:induction false} LatestRequestWins(s: RunnerState, files: seq<string>, host: Host, isWin: bool, shell: string)
    requires !s.initialized && !Invalidates(s.compileCommand, host) && files != []
    ensures RunAll(s, files, host, isWin, shell) == s.(lastRunCommand := Some(files[|files| - 1]))
    decreases |files|
  {
    var s' := RunStep(s, files[0], host, isWin, shell).state;
    if |files| > 1 {
      LatestRequestWins(s', files[1..], host, isWin, shell);
      assert files[1..][|files[1..]| - 1] == files[|files| - 1];
    }
  }

  /** Once `init` settles on a usable command, the remembered request is
      replayed and its launch lines are sent exactly once: two calls later
      the runner is ready, the request is cleared, and the launch lines for
      that file's directory are the only lines sent. (Those lines make
      `<dir>bin`, but compile `*.cpp` in whatever directory the terminal is
      in: the `cd` into `dir` at line 177 is commented out.) */
  lemma DeferredRequestReplayed(s: RunnerState, file: string, host: Host, isWin: bool, ui: Answers, shell: string)
    requires !s.initialized && s.lastRunCommand == Some(file) && file != ""
    requires Truthy(Discover(s.setting, host, isWin, ui))
    requires !Invalidates(Discover(s.setting, host, isWin, ui), host)
    ensures var c := Discover(s.setting, host, isWin, ui);
      Chain(s, StartInit, host, isWin, ui, shell, 2) ==
        Step(RunnerState(c, None, true, c), Done, LaunchLines(GetDir(file), c.value, host, isWin, shell))
  {
    var c := Discover(s.setting, host, isWin, ui);
    InitHandsOver(s, host, isWin, ui);
    var ready := RunnerState(c, Some(file), true, c);
    var lines := LaunchLines(GetDir(file), c.value, host, isWin, shell);
    var done := ready.(lastRunCommand := None);
    assert RunStep(ready, file, host, isWin, shell) == Step(done, Done, lines);
    var tail := Chain(ready, Replay(file), host, isWin, ui, shell, 1);
    assert tail == Step(done, Done, lines + []);
    assert Chain(s, StartInit, host, isWin, ui, shell, 2) == Step(tail.state, tail.next, [] + tail.sent);
  }

  /** An `init` that finds a command hands over to `finishInit`, which marks
      the runner ready and replays the pending request. */
  lemma InitHandsOver(s: RunnerState, host: Host, isWin: bool, ui: Answers)
    requires Truthy(Discover(s.setting, host, isWin, ui)) && Truthy(s.lastRunCommand)
    ensures var c := Discover(s.setting, host, isWin, ui);
      InitStep(s, host, isWin, ui) ==
        Step(RunnerState(c, s.lastRunCommand, true, c), Replay(s.lastRunCommand.value), [])
  {
  }

  /** A saved path-like command that the locate utility accepts but that
      neither exists nor runs by itself is taken back by `init` from the
      unchanged setting and dropped again by the replayed `run`: the chain
      of started calls returns to where it began, for ever, and no launch
      line is ever sent for the pending file. */
  lemma {:induction false} StaleSavedCommandNeverSettles(
    s: RunnerState, file: string, host: Host, isWin: bool, ui: Answers, shell: string, rounds: nat)
    requires s.initialized && Truthy(s.compileCommand) && s.setting == s.compileCommand
    requires s.lastRunCommand == Some(file) && file != ""
    requires Invalidates(s.compileCommand, host) && Locates(host, isWin, s.compileCommand.value)
    ensures Chain(s, Replay(file), host, isWin, ui, shell, 2 * rounds) == Step(s, Replay(file), [])
    decreases rounds
  {
    if rounds > 0 {
      var dropped := s.(compileCommand := None, initialized := false);
      StaleRound(s, file, host, isWin, ui, shell);
      StaleSavedCommandNeverSettles(s, file, host, isWin, ui, shell, rounds - 1);
      var back := Chain(s, Replay(file), host, isWin, ui, shell, 2 * rounds - 2);
      var mid := Chain(dropped, StartInit, host, isWin, ui, shell, 2 * rounds - 1);
      assert mid == Step(back.state, back.next, [] + back.sent);
    }
  }

  /** One round of the cycle: `run` drops the command, `init` takes it back. */
  lemma StaleRound(s: RunnerState, file: string, host: Host, isWin: bool, ui: Answers, shell: string)
    requires s.initialized && Truthy(s.compileCommand) && s.setting == s.compileCommand
    requires s.lastRunCommand == Some(file) && file != ""
    requires Invalidates(s.compileCommand, host) && Locates(host, isWin, s.compileCommand.value)
    ensures Dispatch(s, Replay(file), host, isWin, ui, shell) ==
      Step(s.(compileCommand := None, initialized := false), StartInit, [])
    ensures Dispatch(s.(compileCommand := None, initialized := false), StartInit, host, isWin, ui, shell) ==
      Step(s, Replay(file), [])
  {
    var dropped := s.(compileCommand := None, initialized := false);
    assert SavedUsable(dropped.setting, host, isWin);
    assert Discover(dropped.setting, host, isWin, ui) == s.compileCommand;
  }

  // ----- the class -----

  /** The runner object. Its operations take the host and the user's
      answers as inputs and return the call they start (`Followup`) rather
      than making it. */
  class CodeRunner {
    var compileCommand: Option<string>
    var lastRunCommand: Option<string>
    var initialized: bool
    /** The persisted setting 'conf.projcpp.compileCommand'. */
    var setting: Option<string>
    const isWin: bool

    function State(): RunnerState
      reads this
    {
      RunnerState(compileCommand, lastRunCommand, initialized, setting)
    }

    ghost predicate Valid()
      reads this
    {
      State().Valid()
    }

    /** A fresh runner: nothing found, nothing pending, not ready, and
      `isWin` as line 21 computes it (the platform name contains "win",
      so "darwin" counts). The `init` the source's constructor starts is the
      first `Init` call made on it. */
    constructor (platform: string, setting: Option<string>)
      ensures Valid() && isWin == Platform.IsWinAsWritten(platform)
      ensures State() == RunnerState(None, None, false, setting)
    {
      compileCommand := None;
      lastRunCommand := None;
      initialized := false;
      this.setting := setting;
      isWin := Platform.IsWinAsWritten(platform);
    }

    /** The same runner with the corrected detection: Windows is "win32"
      alone. */
    constructor OnWindowsOnly(platform: string, setting: Option<string>)
      ensures Valid() && isWin == Platform.IsWindows(platform)
      ensures State() == RunnerState(None, None, false, setting)
    {
      compileCommand := None;
      lastRunCommand := None;
      initialized := false;
      this.setting := setting;
      isWin := Platform.IsWindows(platform);
    }

    /** `init`, lines 24-116. The source starts it only when the runner is not
      ready (from the constructor, and from `run` right after clearing
      `initialized`). */
    method Init(host: Host, ui: Answers) returns (next: Followup)
      requires Valid() && !initialized
      modifies this
      ensures Valid()
      ensures Step(State(), next, []) == InitStep(old(State()), host, isWin, ui)
    {
      ghost var s0 := State();
      var saved := setting;
      var where := Platform.Where(isWin);
      if Truthy(saved) {
        if host.Exists(saved.value) || CheckIfCommand(host, where + " " + saved.value) {
          compileCommand := saved;
          next := FinishInit();
          return;
        }
      }
      assert !SavedUsable(s0.setting, host, isWin);
      assert where + " g++" == where + " " + "g++" && where + " gcc" == where + " " + "gcc";
      if CheckIfCommand(host, where + " g++") {
        compileCommand := Some("g++");
      } else if CheckIfCommand(host, where + " gcc") {
        compileCommand := Some("gcc");
      } else if host.Exists(Discovery.X86CodeBlocks) {
        compileCommand := Some(Discovery.X86CodeBlocksCompiler);
      } else if host.Exists(Discovery.CodeBlocks) {
        compileCommand := Some(Discovery.CodeBlocksCompiler);
      } else {
        assert ProbeChain(host, isWin).None?;
        match ui.prompt
        case ChooseInstalled =>
          if ui.executable.Some? {
            compileCommand := Some(ui.executable.value);
          } else {
            return Done;
          }
        case Download =>
          if !ui.extract {
            return Done;
          }
          if ui.folder.None? {
            return Done;
          }
          compileCommand := Some(ExtractedCompiler(ui.folder.value));
        case Dismissed =>
          return Done;
      }
      next := FinishInit();
    }

    /** `finishInit`, lines 118-133 (the PATH registry edit is left out). */
    method FinishInit() returns (next: Followup)
      modifies this
      ensures Step(State(), next, []) == FinishInitStep(old(State()))
      ensures old(Valid()) ==> Valid()
    {
      if !Truthy(compileCommand) {
        return Done;
      }
      setting := compileCommand;
      initialized := true;
      if Truthy(lastRunCommand) {
        next := Replay(lastRunCommand.value);
      } else {
        next := Done;
      }
    }

    /** `run`, lines 150-184, with the shell already resolved (lines 167-174
      are left out) and the terminal's lines returned. */
    method Run(file: string, host: Host, shell: string) returns (next: Followup, sent: seq<string>)
      requires Valid()
      modifies this
      ensures Valid()
      ensures Step(State(), next, sent) == RunStep(old(State()), file, host, isWin, shell)
    {
      ghost var s0 := State();
      if Truthy(compileCommand) && (PathLike(compileCommand.value))
        && (!host.Exists(compileCommand.value) && !CheckIfCommand(host, compileCommand.value))
      {
        assert Invalidates(s0.compileCommand, host);
        compileCommand := None;
        initialized := false;
        return StartInit, [];
      }
      if !initialized {
        lastRunCommand := Some(file);
        return Done, [];
      } else {
        lastRunCommand := None;
      }
      assert !Invalidates(s0.compileCommand, host) && s0.initialized;
      var dir := GetDir(file);
      var powerShell := Strings.Includes(shell, "powershell");
      var cmd := Strings.Includes(shell, "cmd");
      sent := [];
      if !host.Exists(dir + "bin") {
        sent := sent + [MkdirLine(dir)];
      }
      sent := sent + [CompileLine(Template(compileCommand), powerShell)];
      sent := sent + [BinaryLine(isWin && (powerShell || cmd))];
      assert sent == LaunchLines(dir, Template(s0.compileCommand), host, isWin, shell);
      assert State() == s0.(lastRunCommand := None);
      next := Done;
    }
  }
}
