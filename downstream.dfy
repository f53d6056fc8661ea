/**
 * KaijuUtil's three downstream command builders: `kaijuReport`,
 * `kaiju2krona` and Krona's `ktImportText`. Each is a trio of
 * `_validate_*_options`, `_process_*_options` and `_build_*_command`; the
 * three trios differ only in the binary they name, so the tool is a parameter.
 */
module KaijuDownstream {
  import opened Wrappers
  import opened PyValues
  import opened KaijuErrors
  import opened KaijuCommand

  datatype Tool = KaijuReport | Kaiju2Krona | KronaImport

  /** The absolute path of each tool's binary. */
  function ToolBin(t: Tool): string
  {
    match t
    case KaijuReport => "/kb/module/kaiju/bin/kaijuReport"
    case Kaiju2Krona => "/kb/module/kaiju/bin/kaiju2krona"
    case KronaImport => "/kb/module/Krona/bin/ktImportText"
  }

  /** The keyword flags of a validator: which settings must be present. */
  datatype Checks = Checks(bin: bool, out: bool, plots: bool, tetra: bool)

  /** The validators' defaults, which is how the builders call them. */
  const NoChecks := Checks(false, false, false, false)

  /** Every setting that a raised check flag asks for is present. */
  predicate SettingsPresent(o: Dict, c: Checks)
  {
    && (c.bin ==> "bin_folder" in o)
    && (c.out ==> "out_folder" in o)
    && (c.plots ==> "plots_folder" in o)
    && (c.tetra ==> "tetra_file" in o)
  }

  /**
   * The `_validate_*_options` checks in source order, with the setting each
   * error message names for a missing `out_folder` given as `outName`.
   */
  function CheckSettings(o: Dict, c: Checks, subcommand: string, outName: string): (out: Outcome<Error>)
    ensures out.Pass? <==> SettingsPresent(o, c)
  {
    if c.bin && "bin_folder" !in o then Fail(MissingSetting("bin_folder", subcommand))
    else if c.out && "out_folder" !in o then Fail(MissingSetting(outName, subcommand))
    else if c.plots && "plots_folder" !in o then Fail(MissingSetting("plots_folder", subcommand))
    else if c.tetra && "tetra_file" !in o then Fail(MissingSetting("tetra_file", subcommand))
    else Pass
  }

  /**
   * `_validate_*_options` as written: a missing `out_folder` is reported as
   * "without bin_folder option set".
   */
  function ValidateDownstreamAsWritten(o: Dict, c: Checks, subcommand: string): (out: Outcome<Error>)
    ensures out.Pass? <==> SettingsPresent(o, c)
  {
    CheckSettings(o, c, subcommand, "bin_folder")
  }

  /** `_validate_*_options` with a missing `out_folder` reported under its own name. */
  function ValidateDownstream(o: Dict, c: Checks, subcommand: string): (out: Outcome<Error>)
    ensures out.Pass? <==> SettingsPresent(o, c)
    ensures out.Fail? ==> out.error.MissingSetting? && out.error.subcommand == subcommand
                          && out.error.setting !in o
  {
    CheckSettings(o, c, subcommand, "out_folder")
  }

  /** With `out_folder` the only missing setting, the message as written names `bin_folder`, which is present. */
  lemma OutFolderMessageNamesBinFolder(o: Dict, subcommand: string)
    requires "bin_folder" in o && "out_folder" !in o
    ensures ValidateDownstreamAsWritten(o, Checks(true, true, false, false), subcommand)
            == Fail(MissingSetting("bin_folder", subcommand))
    ensures ValidateDownstream(o, Checks(true, true, false, false), subcommand)
            == Fail(MissingSetting("out_folder", subcommand))
  {
  }

  /** The builders call the validators with the default flags, which never raise. */
  lemma DefaultValidationPasses(o: Dict, subcommand: string)
    ensures ValidateDownstream(o, NoChecks, subcommand) == Pass
    ensures ValidateDownstreamAsWritten(o, NoChecks, subcommand) == Pass
  {
  }

  /** `str(quiet) == '1'` after the truthiness test on `quiet`. */
  predicate QuietOn(o: Dict)
  {
    Truthy(Get(o, "quiet")) && ToStr(Get(o, "quiet")) == "1"
  }

  /** The words `_process_*_options` appends: `-t <thread>` when `thread` is truthy, then `--quiet`. */
  function DownstreamFlags(o: Dict): seq<string>
  {
    (if Truthy(Get(o, "thread")) then ["-t", ToStr(Get(o, "thread"))] else [])
    + (if QuietOn(o) then ["--quiet"] else [])
  }

  /** `_process_*_options`: appends to the command list in place. */
  method ProcessDownstreamOptions(cmd: CommandLine, o: Dict)
    modifies cmd
    ensures cmd.args == old(cmd.args) + DownstreamFlags(o)
  {
    var thread := Get(o, "thread");
    if Truthy(thread) {
      cmd.Append("-t");
      cmd.Append(ToStr(thread));
    }
    var quiet := Get(o, "quiet");
    if Truthy(quiet) && ToStr(quiet) == "1" {
      cmd.Append("--quiet");
    }
  }

  /** `_build_*_command`: the tool's binary followed by its flags. */
  function DownstreamCommandLine(t: Tool, o: Dict): seq<string>
  {
    [ToolBin(t)] + DownstreamFlags(o)
  }

  /**
   * `_build_*_command`. Its call to the validator uses the default flags and so
   * cannot raise (`DefaultValidationPasses`); the argv is always built.
   */
  method BuildDownstreamCommand(t: Tool, o: Dict) returns (argv: seq<string>)
    ensures argv == DownstreamCommandLine(t, o)
  {
    var cmd := new CommandLine([ToolBin(t)]);
    ProcessDownstreamOptions(cmd, o);
    return cmd.args;
  }

  /** `--quiet` is emitted exactly for `quiet` equal to the int 1 or the string '1'. */
  lemma QuietExactlyForOne(o: Dict)
    ensures QuietOn(o) <==> Get(o, "quiet") == Int(1) || Get(o, "quiet") == Str("1")
  {
    StrIsOne(Get(o, "quiet"));
  }

  /**
   * A downstream argv is the binary, then `-t` followed by `str(thread)` iff
   * `thread` is truthy, then `--quiet` iff `quiet` is 1 or '1', and nothing else.
   */
  lemma DownstreamArgvShape(t: Tool, o: Dict)
    ensures var argv := DownstreamCommandLine(t, o);
            var thread := Get(o, "thread");
            var n := if Truthy(thread) then 3 else 1;
            var quiet := Get(o, "quiet") == Int(1) || Get(o, "quiet") == Str("1");
            && argv[0] == ToolBin(t)
            && (Truthy(thread) ==> argv[1] == "-t" && argv[2] == ToStr(thread))
            && ("-t" in argv <==> Truthy(thread))
            && |argv| == (if quiet then n + 1 else n)
            && (quiet ==> argv[n] == "--quiet")
  {
    QuietExactlyForOne(o);
    var argv := DownstreamCommandLine(t, o);
    var thread := Get(o, "thread");
    assert ToolBin(t) != "-t" by {
      assert ToolBin(t)[0] == '/';
    }
  }
}
