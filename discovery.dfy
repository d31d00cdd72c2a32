/** The compiler search shared by `CodeRunner.init` (src/runcode.ts) and
    `findCompiler` (src/helper.ts): a fixed list of well-known candidates
    tried in order, then an interactive fallback. Each of the two files
    decides for itself what it means for a probe to pass. */
module Discovery {
  import opened Host

  /** How a candidate is tried: by running the platform's locate utility on
      a command name, or by checking that an installation directory exists. */
  datatype Probe = Locate(name: string) | DirectoryExists(path: string)

  /** A candidate: its probe and the compile command it yields. */
  datatype Candidate = Candidate(probe: Probe, command: string)

  const X86CodeBlocks := "C:\\Program Files (x86)\\CodeBlocks\\MinGW"
  const X86CodeBlocksCompiler := "C:\\Program Files (x86)\\CodeBlocks\\MinGW\\bin\\g++.exe"
  const CodeBlocks := "C:\\Program Files\\CodeBlocks\\MinGW"
  const CodeBlocksCompiler := "C:\\Program Files\\CodeBlocks\\MinGW\\bin\\g++.exe"

  /** The candidates, in the order both files try them. */
  const Candidates: seq<Candidate> := [
    Candidate(Locate("g++"), "g++"),
    Candidate(Locate("gcc"), "gcc"),
    Candidate(DirectoryExists(X86CodeBlocks), X86CodeBlocksCompiler),
    Candidate(DirectoryExists(CodeBlocks), CodeBlocksCompiler)
  ]

  /** The position of the first `true` in `passed`, if there is one. */
  function FirstTrue(passed: seq<bool>): (r: Option<nat>)
    ensures r.Some? ==> r.value < |passed| && passed[r.value]
    ensures r.Some? ==> forall j :: 0 <= j < r.value ==> !passed[j]
    ensures r.None? <==> forall j :: 0 <= j < |passed| ==> !passed[j]
    decreases |passed|
  {
    if passed == [] then None
    else if passed[0] then Some(0)
    else match FirstTrue(passed[1..])
      case None => None
      case Some(k) => Some(k + 1)
  }

  /** The outcome of every candidate's probe, in candidate order, under a
      rule that says whether a probe passes. */
  function Probed(passes: Probe -> bool): (r: seq<bool>)
    ensures |r| == |Candidates|
    ensures forall i :: 0 <= i < |r| ==> r[i] == passes(Candidates[i].probe)
  {
    seq(|Candidates|, i requires 0 <= i < |Candidates| => passes(Candidates[i].probe))
  }

  /** Reference definition of the candidate search: given whether each
      candidate's probe passed, the command of the first one that did. */
  function FirstMatch(passed: seq<bool>): (r: Option<string>)
    requires |passed| == |Candidates|
  {
    match FirstTrue(passed)
    case None => None
    case Some(i) => Some(Candidates[i].command)
  }

  /** First-match semantics: the result is the first passing candidate's
      command, every earlier candidate failed, and when nothing passes there
      is no result. */
  lemma FirstMatchIsFirst(passed: seq<bool>)
    requires |passed| == |Candidates|
    ensures FirstMatch(passed).None? <==> forall j :: 0 <= j < |passed| ==> !passed[j]
    ensures FirstMatch(passed).Some? ==>
      exists i :: 0 <= i < |Candidates| && passed[i] && FirstMatch(passed).value == Candidates[i].command &&
        forall j :: 0 <= j < i ==> !passed[j]
  {
    var r := FirstTrue(passed);
    if r.Some? {
      assert passed[r.value] && FirstMatch(passed).value == Candidates[r.value].command;
    }
  }

  /** An if/else chain over the four candidates in order is the first match:
      each branch is taken exactly when its probe passes and every earlier
      one failed. */
  lemma ChainIsFirstMatch(passed: seq<bool>)
    requires |passed| == |Candidates|
    ensures FirstMatch(passed) ==
      if passed[0] then Some("g++")
      else if passed[1] then Some("gcc")
      else if passed[2] then Some(X86CodeBlocksCompiler)
      else if passed[3] then Some(CodeBlocksCompiler)
      else None
  {
    if passed[0] {
      assert FirstTrue(passed) == Some(0);
    } else if passed[1] {
      assert FirstTrue(passed[1..]) == Some(0);
    } else if passed[2] {
      assert FirstTrue(passed[1..][1..]) == Some(0);
    } else if passed[3] {
      assert FirstTrue(passed[1..][1..][1..]) == Some(0);
    } else {
      assert FirstTrue(passed) == None;
    }
  }

  /** What the interactive fallback produces. */
  datatype FallbackResult = Picked(executable: string) | Extracted(folder: string) | BackedOut

  /** The fallback dialogs: pick an installed executable, or download the
      toolchain and extract it into a chosen folder. */
  function Fallback(ui: Answers): (r: FallbackResult)
    ensures r.Picked? <==> ui.prompt == ChooseInstalled && ui.executable.Some?
    ensures r.Picked? ==> r.executable == ui.executable.value
    ensures r.Extracted? <==> ui.prompt == Download && ui.extract && ui.folder.Some?
    ensures r.Extracted? ==> r.folder == ui.folder.value
  {
    match ui.prompt
    case ChooseInstalled =>
      if ui.executable.Some? then Picked(ui.executable.value) else BackedOut
    case Download =>
      // A failed download only shows a message; the extraction prompt follows regardless.
      if !ui.extract then BackedOut
      else if ui.folder.None? then BackedOut
      else Extracted(ui.folder.value)
    case Dismissed => BackedOut
  }

  /** The fallback backs out exactly when the first prompt is dismissed, the
      file picker is cancelled, extraction is declined or the folder picker is
      cancelled; whether the download succeeded plays no part. */
  lemma BackedOutCases(ui: Answers, downloaded: bool)
    ensures Fallback(ui).BackedOut? <==>
      || ui.prompt == Dismissed
      || (ui.prompt == ChooseInstalled && ui.executable.None?)
      || (ui.prompt == Download && !ui.extract)
      || (ui.prompt == Download && ui.extract && ui.folder.None?)
    ensures Fallback(ui.(downloaded := downloaded)) == Fallback(ui)
  {
  }
}
