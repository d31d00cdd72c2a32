/** src/helper.ts: a second, free-standing compiler search (`findCompiler`),
    its own `checkIfCommand`, and `compile`, which runs the compiler and
    turns the outcome into a diagnostic string ('' meaning success). */
module Helper {
  import opened Host
  import Platform
  import Discovery
  import RunCode

  /** `isWin` (line 14), as written: the platform name contains "win". It
      picks the locate utility (line 15). */
  predicate IsWin(platform: string) {
    Platform.IsWinAsWritten(platform)
  }

  /** `checkIfCommand`: runs the locate utility on `command` and answers false
      only when `exec` rejects; output on stderr is merely logged. */
  function CheckIfCommand(host: Host, platform: string, command: string): (ok: bool)
    ensures ok <==> !host.Run(Platform.Where(IsWin(platform)) + " " + command).Threw?
  {
    match host.Run(Platform.Where(IsWin(platform)) + " " + command)
    case Threw(_) => false
    case Finished(_, _) => true
  }

  /** This probe is weaker than the one in src/runcode.ts: whatever that one
      accepts, this one accepts, and they differ exactly on a locate run that
      resolves but writes to stderr. */
  lemma LenientProbe(host: Host, platform: string, name: string)
    ensures RunCode.Locates(host, IsWin(platform), name) ==> CheckIfCommand(host, platform, name)
    ensures CheckIfCommand(host, platform, name) && !RunCode.Locates(host, IsWin(platform), name) <==>
      host.Run(Platform.Where(IsWin(platform)) + " " + name).Finished? &&
      host.Run(Platform.Where(IsWin(platform)) + " " + name).stderr != ""
  {
  }

  /** Whether a candidate's probe passes, by this file's rules. */
  predicate Passes(host: Host, platform: string, p: Discovery.Probe) {
    match p
    case Locate(name) => CheckIfCommand(host, platform, name)
    case DirectoryExists(path) => host.Exists(path)
  }

  /** The outcome of every candidate's probe, by this file's rules. */
  function Probed(host: Host, platform: string): seq<bool> {
    Discovery.Probed(p => Passes(host, platform, p))
  }

  /** `vscode.Uri.joinPath(folder, 'mingw64/bin/g++.exe').fsPath`: the
      separator is the one of the platform the editor really runs on, not
      the one `isWin` suggests. */
  function ExtractedCompiler(folder: string, platform: string): string {
    if Platform.IsWindows(platform) then folder + "\\mingw64\\bin\\g++.exe"
    else folder + "/mingw64/bin/g++.exe"
  }

  /** Away from Windows the extracted compiler's path is the one
      `CodeRunner.init` builds. */
  lemma ExtractedCompilerAsInInit(folder: string, platform: string)
    requires !Platform.IsWindows(platform)
    ensures ExtractedCompiler(folder, platform) == RunCode.ExtractedCompiler(folder)
  {
  }

  /** `findCompiler`: the first candidate that passes, else the dialogs; ''
      when the user backs out. */
  function FindCompiler(host: Host, platform: string, ui: Answers): (command: string)
    ensures Discovery.FirstMatch(Probed(host, platform)).Some? ==>
      command == Discovery.FirstMatch(Probed(host, platform)).value
    ensures Discovery.FirstMatch(Probed(host, platform)).None? ==>
      command == match Discovery.Fallback(ui)
                 case Picked(path) => path
                 case Extracted(folder) => ExtractedCompiler(folder, platform)
                 case BackedOut => ""
  {
    var modifiedCommand :=
      if CheckIfCommand(host, platform, "g++") then "g++"
      else if CheckIfCommand(host, platform, "gcc") then "gcc"
      else if host.Exists(Discovery.X86CodeBlocks) then Discovery.X86CodeBlocksCompiler
      else if host.Exists(Discovery.CodeBlocks) then Discovery.CodeBlocksCompiler
      else "";
    Discovery.ChainIsFirstMatch(Probed(host, platform));
    if modifiedCommand != "" then modifiedCommand
    else match Discovery.Fallback(ui)
      case Picked(path) => path
      case Extracted(folder) => ExtractedCompiler(folder, platform)
      case BackedOut => ""
  }

  /** The search answers '' when no candidate passes and the user dismisses
      the first prompt, cancels the file picker, declines extraction or
      cancels the folder picker; a candidate that passes is never followed
      by a dialog. */
  lemma FindCompilerEmptyOnBackOut(host: Host, platform: string, ui: Answers)
    requires forall i :: 0 <= i < |Discovery.Candidates| ==> !Probed(host, platform)[i]
    requires || ui.prompt == Dismissed
             || (ui.prompt == ChooseInstalled && ui.executable.None?)
             || (ui.prompt == Download && !ui.extract)
             || (ui.prompt == Download && ui.folder.None?)
    ensures FindCompiler(host, platform, ui) == ""
  {
    Discovery.FirstMatchIsFirst(Probed(host, platform));
  }

  /** With no saved command and away from Windows, `findCompiler` and
      `CodeRunner.init` (with the same platform detection) settle on the
      same command whenever the locate runs for `g++` and `gcc` write
      nothing to stderr (the only place their probes differ);
      `findCompiler`'s '' stands for `init` giving up. */
  lemma SameChoiceAsInit(host: Host, platform: string, ui: Answers)
    requires !Platform.IsWindows(platform)
    requires forall name | name in {"g++", "gcc"} ::
      host.Run(Platform.Where(IsWin(platform)) + " " + name).Finished? ==>
        host.Run(Platform.Where(IsWin(platform)) + " " + name).stderr == ""
    ensures FindCompiler(host, platform, ui) ==
      match RunCode.Discover(None, host, IsWin(platform), ui)
      case Some(command) => command
      case None => ""
  {
    assert "g++" in {"g++", "gcc"} && "gcc" in {"g++", "gcc"};
    assert Probed(host, platform) == RunCode.Probed(host, IsWin(platform));
    RunCode.ProbeChainIsFirstMatch(host, IsWin(platform));
  }

  /** The compile command: every `.cpp` file into `path.join('bin', 'main.exe')`,
      joined with the separator of the platform the editor runs on. */
  function CompileCommandLine(compileCommand: string, platform: string): string {
    compileCommand + " *.cpp -o " + (if Platform.IsWindows(platform) then "bin\\main.exe" else "bin/main.exe")
  }

  /** `compile`: run the compile command in `dir` and report what went wrong.
      The result is always what the compiler wrote to stderr, whether `exec`
      resolved or rejected, so '' comes back exactly when that stream was
      empty. */
  function Compile(host: Host, platform: string, compileCommand: string, dir: string): (diagnostic: string)
    ensures diagnostic == host.exec(ExecRequest(CompileCommandLine(compileCommand, platform), Some(dir))).stderr
  {
    match host.exec(ExecRequest(CompileCommandLine(compileCommand, platform), Some(dir)))
    case Finished(_, stderr) => if |stderr| > 0 then stderr else ""
    case Threw(stderr) => stderr
  }

  /** '' (success) is reported for a run that resolves with nothing on
      stderr, and for no run that fails with a diagnostic; a failed run that
      wrote nothing on stderr is also reported as ''. */
  lemma CompileSuccessIsClean(host: Host, platform: string, compileCommand: string, dir: string)
    ensures var outcome := host.exec(ExecRequest(CompileCommandLine(compileCommand, platform), Some(dir)));
      Compile(host, platform, compileCommand, dir) == "" <==>
        (outcome.Finished? && outcome.stderr == "") || (outcome.Threw? && outcome.stderr == "")
  {
  }
}
