/** The outside world as the extension sees it. Every filesystem check, every
    child-process outcome and every answer to a dialog is an input (an oracle)
    rather than something the model performs. */
module Host {

  datatype Option<+T> = None | Some(value: T)

  /** JavaScript truthiness of a `string | undefined | null` value: set and
      not the empty string. */
  predicate Truthy(o: Option<string>) {
    o.Some? && o.value != ""
  }

  /** What `child_process.exec` (promisified) yields for one command line:
      it either resolves with both output streams, or rejects with an error
      object that carries the captured `stderr`. */
  datatype ExecOutcome =
    | Finished(stdout: string, stderr: string)
    | Threw(stderr: string)

  /** One `exec` call: the command line and the `cwd` option, if any. */
  datatype ExecRequest = ExecRequest(command: string, cwd: Option<string>)

  /** The host: the paths `fs.existsSync` reports as existing, and the outcome
      of every `exec` call. */
  datatype Host = Host(existing: set<string>, exec: ExecRequest -> ExecOutcome)
  {
    /** `fs.existsSync(path)` */
    predicate Exists(path: string) {
      path in existing
    }

    /** The outcome of `exec(command)` without options. */
    function Run(command: string): ExecOutcome {
      exec(ExecRequest(command, None))
    }
  }

  /** The first dialog of the fallback, shown when no compiler is found:
      'Choose installed executable', 'Download', or dismissed. */
  datatype Prompt = ChooseInstalled | Download | Dismissed

  /** The user's answers to the dialogs of the fallback, in the order they
      are asked; answers to dialogs that are never shown are ignored.
      `downloaded` is whether the HTTPS download reported success;
      `extract` is whether 'Choose extract location' was picked (false for
      'No' and for a dismissed message); `executable` and `folder` are the
      file and folder pickers' results (None when cancelled). */
  datatype Answers = Answers(
    prompt: Prompt,
    executable: Option<string>,
    downloaded: bool,
    extract: bool,
    folder: Option<string>)
}
