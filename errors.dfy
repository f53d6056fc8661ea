/**
 * The exceptions the batch engine raises, and the text of those the source
 * raises itself (`raise ValueError(...)`). Exceptions raised by the Python
 * runtime (KeyError, TypeError, OSError) are named but their text is not modelled.
 */
module KaijuErrors {
  import opened Wrappers
  import opened PyValues

  datatype Error =
      /** run_kaiju_and_krona: a required app parameter is absent, None or ''. */
    | MissingParam(key: string)
      /** run_kaiju_and_krona: a greedy-mode parameter is absent, None or ''. */
    | MissingGreedyParam(key: string)
      /** _validate_kaiju_options: a first-order option is absent, None or ''. */
    | MissingOption(key: string)
      /** _validate_kaiju_options: greedy_allowed_mismatches absent or below 1 in greedy mode. */
    | GreedyOptionRequired(key: string)
      /** `int(v)` raised TypeError or ValueError for the value stored under `key`. */
    | NotAnInteger(key: string, v: Value)
      /** `d[key]` raised KeyError. */
    | MissingKey(key: string)
      /** `os.path.join` raised TypeError because the value under `key` is not a string. */
    | NotAString(key: string)
      /** _build_kaiju_command: `db_type` is not one of the four known index tags. */
    | BadDbType(tag: string)
      /** `os.path.getsize` raised OSError: no such file. */
    | FileNotFound(path: string)
      /** A file that must be non-empty has size 0; `what` names it in the message. */
    | EmptyFile(what: string, path: string)
      /** run_kaiju_batch: the classifier exited with a nonzero code. */
    | CommandFailed(command: seq<string>, exitCode: int)
      /** package_folder was asked to package the scratch directory itself. */
    | ScratchFolder
      /** package_folder was given a folder that does not exist. */
    | MissingFolder(path: string)
      /** A downstream validator's check flag is set but `setting` is absent from the options. */
    | MissingSetting(setting: string, subcommand: string)
      /** build_summary_table: a stats line has no second tab-separated column (IndexError). */
    | MalformedStatsLine(line: string)
      /** build_summary_table: `ast.literal_eval` rejected the second column. */
    | UnparsableStats(text: string)
      /** A name that is neither a parameter, a local nor a module global was evaluated. */
    | NameError(name: string)

  /** The message of an exception the source raises itself; None for runtime exceptions. */
  function SourceMessage(e: Error): Option<string>
  {
    match e
    case MissingParam(k) =>
      Some("Must define required param: '" + k + "' for method: 'run_kaiju_and_krona()'")
    case MissingGreedyParam(k) =>
      Some("Must define GREEDY MODE required param: '" + k + "' for method: 'run_kaiju_and_krona()'")
    case MissingOption(k) =>
      Some("Must define required opt: '" + k + "' for func: 'kaiju()'")
    case GreedyOptionRequired(k) =>
      Some("Must define required opt: '" + k + "' for func: 'kaiju()' if running in greedy_run_mode")
    case BadDbType(tag) =>
      Some("bad db_type: " + tag
           + " (must be one of \"kaiju_index\", \"kaiju_index_pg\", \"kaiju_index_nr\", \"kaiju_index_nr_euk\")")
    case EmptyFile(what, path) =>
      Some("missing or empty " + what + " file: " + path)
    case CommandFailed(command, code) =>
      Some("Error running command: " + JoinWith(command, " ") + "\n" + "Exit Code: " + DecimalString(code))
    case ScratchFolder =>
      Some("cannot package folder that is not a subfolder of scratch")
    case MissingFolder(path) =>
      Some("cannot package folder that doesn't exist: " + path)
    case MissingSetting(setting, sub) =>
      Some("cannot run checkm " + sub + " without " + setting + " option set")
    case _ => None
  }

  /**
   * The batch failure message names the whole command line, and the exit
   * code can be read back from its end.
   */
  lemma CommandFailedMessage(command: seq<string>, code: int)
    ensures SourceMessage(CommandFailed(command, code)).Some?
    ensures var m := SourceMessage(CommandFailed(command, code)).value;
            var line := JoinWith(command, " ");
            && 23 + |line| + 12 <= |m|
            && m[23..23 + |line|] == line
            && ParseInt(m[23 + |line| + 12..]) == Some(code)
  {
    var line := JoinWith(command, " ");
    var m := SourceMessage(CommandFailed(command, code)).value;
    assert m == "Error running command: " + line + "\n" + "Exit Code: " + DecimalString(code);
    assert m[23 + |line| + 12..] == DecimalString(code);
    DecimalRoundTrip(code);
  }
}
