/**
 * KaijuUtil's app entry point `run_kaiju_and_krona` up to the batch run: the
 * required-parameter check, the options dictionary handed to
 * `run_kaiju_batch`, and `_build_output_packages`.
 *
 * Staging the input reads is a call into another service; its answer is a
 * parameter. The report object that ends the app is not modelled.
 */
module KaijuApp {
  import opened Wrappers
  import opened PyValues
  import opened KaijuErrors
  import opened KaijuCommand
  import opened KaijuBatch
  import opened OutputBuilder

  // ---------------------------------------------------------------------
  // The required-parameter check

  /** The parameters the app cannot run without, in the order they are checked. */
  const RequiredParams: seq<string> := [
    "workspace_name", "input_refs", "output_biom_name", "tax_levels", "db_type", "seg_filter",
    "min_match_length", "greedy_run_mode", "filter_percent", "filter_unclassified", "full_tax_path"
  ]

  /** The parameters greedy mode additionally needs, in the order they are checked. */
  const GreedyParams: seq<string> := ["greedy_allowed_mismatches", "greedy_min_match_score", "greedy_max_e_value"]

  /** `int(params['greedy_run_mode']) == 1`. */
  predicate GreedyRequested(p: Dict)
  {
    ToInt(Get(p, "greedy_run_mode")) == Some(1)
  }

  /** The parameters a check with these key lists accepts. */
  predicate ParamsValid(p: Dict, required: seq<string>, greedy: seq<string>)
  {
    && (forall i :: 0 <= i < |required| ==> !IsBlank(p, required[i]))
    && ToInt(Get(p, "greedy_run_mode")).Some?
    && (GreedyRequested(p) ==> forall i :: 0 <= i < |greedy| ==> !IsBlank(p, greedy[i]))
  }

  /**
   * The check at the top of `run_kaiju_and_krona`, for its lists of required
   * and greedy-mode keys. A `greedy_run_mode` that `int()` rejects raises
   * there, once the required keys are known present.
   */
  function CheckParams(p: Dict, required: seq<string>, greedy: seq<string>): (out: Outcome<Error>)
    ensures out.Pass? <==> ParamsValid(p, required, greedy)
    ensures (exists i :: 0 <= i < |required| && IsBlank(p, required[i]))
            <==> out.Fail? && out.error.MissingParam?
    ensures out.Fail? && out.error.MissingParam? ==>
              exists i :: && 0 <= i < |required| && required[i] == out.error.key && IsBlank(p, required[i])
                          && forall j :: 0 <= j < i ==> !IsBlank(p, required[j])
    ensures out.Fail? && out.error.MissingGreedyParam? ==>
              GreedyRequested(p) && out.error.key in greedy && IsBlank(p, out.error.key)
    ensures out.Fail? ==> out.error.MissingParam? || out.error.MissingGreedyParam?
                          || out.error == NotAnInteger("greedy_run_mode", Get(p, "greedy_run_mode"))
  {
    match FirstBlank(required, p)
    case Some(k) => Fail(MissingParam(k))
    case None =>
      match ToInt(Get(p, "greedy_run_mode"))
      case None => Fail(NotAnInteger("greedy_run_mode", Get(p, "greedy_run_mode")))
      case Some(mode) =>
        if mode != 1 then Pass
        else
          match FirstBlank(greedy, p)
          case Some(k) => Fail(MissingGreedyParam(k))
          case None => Pass
  }

  /** The check of `run_kaiju_and_krona`. */
  function CheckAppParams(p: Dict): Outcome<Error>
  {
    CheckParams(p, RequiredParams, GreedyParams)
  }

  predicate AppParamsValid(p: Dict)
  {
    ParamsValid(p, RequiredParams, GreedyParams)
  }

  /**
   * With greedy mode off, the check reads nothing but the required keys
   * (`greedy_run_mode` among them): two dictionaries that agree on them get
   * the same verdict, whatever their greedy keys hold or lack.
   */
  lemma GreedyKeysIgnoredWhenOff(p: Dict, q: Dict, required: seq<string>, greedy: seq<string>)
    requires "greedy_run_mode" in required
    requires forall i :: 0 <= i < |required| ==>
               (required[i] in p <==> required[i] in q) && Get(p, required[i]) == Get(q, required[i])
    requires !GreedyRequested(p)
    ensures CheckParams(p, required, greedy) == CheckParams(q, required, greedy)
    ensures CheckParams(p, required, greedy).Fail? ==> !CheckParams(p, required, greedy).error.MissingGreedyParam?
  {
    FirstBlankAgree(required, p, q);
  }

  /**
   * The app's check with greedy mode off: parameters that agree on the
   * required keys are accepted or rejected alike, and never for a greedy key.
   */
  lemma AppGreedyKeysIgnoredWhenOff(p: Dict, q: Dict)
    requires forall i :: 0 <= i < |RequiredParams| ==>
               (RequiredParams[i] in p <==> RequiredParams[i] in q) && Get(p, RequiredParams[i]) == Get(q, RequiredParams[i])
    requires !GreedyRequested(p)
    ensures CheckAppParams(p) == CheckAppParams(q)
    ensures CheckAppParams(p).Fail? ==> !CheckAppParams(p).error.MissingGreedyParam?
  {
    assert RequiredParams[7] == "greedy_run_mode";
    GreedyKeysIgnoredWhenOff(p, q, RequiredParams, GreedyParams);
  }

  // ---------------------------------------------------------------------
  // The options of run_kaiju_batch

  /** The parameters copied into the batch options, in source order. */
  const CopiedParams: seq<string> := [
    "tax_levels", "db_type", "seg_filter", "min_match_length", "greedy_run_mode",
    "greedy_allowed_mismatches", "greedy_min_match_score", "filter_percent", "filter_unclassified", "full_tax_path"
  ]

  /** `os.path.join(scratch, 'output_' + folder_suffix)`. */
  function OutputDir(util: UtilConfig, suffix: string): string
  {
    PathJoin(util.scratch, "output_" + suffix)
  }

  /** The copied parameters with `params.get`, which gives None for a greedy key left out with greedy mode off. */
  function CopyParams(p: Dict, keys: seq<string>): Dict
    decreases |keys|
  {
    if keys == [] then map[]
    else CopyParams(p, keys[..|keys| - 1])[keys[|keys| - 1] := Get(p, keys[|keys| - 1])]
  }

  /**
   * The options `run_kaiju_and_krona` hands to `run_kaiju_batch` (the sample
   * list travels separately, see `RunKaijuAndKrona`).
   */
  function BatchOptions(p: Dict, outputDir: string, threads: int): Dict
  {
    CopyParams(p, CopiedParams)["out_folder" := Str(outputDir)]["threads" := Int(threads)]
  }

  /** The dictionary display as written: `params[k]` raises KeyError for any copied key that is absent. */
  function BatchOptionsAsWritten(p: Dict, outputDir: string, threads: int): Result<Dict, Error>
  {
    match FirstAbsent(CopiedParams, p)
    case Some(k) => Failure(MissingKey(k))
    case None => Success(BatchOptions(p, outputDir, threads))
  }

  lemma {:induction false} CopyParamsAt(p: Dict, keys: seq<string>)
    ensures forall k :: k in CopyParams(p, keys) <==> k in keys
    ensures forall k :: k in keys ==> CopyParams(p, keys)[k] == Get(p, k)
    decreases |keys|
  {
    if keys != [] {
      var n := |keys| - 1;
      CopyParamsAt(p, keys[..n]);
      assert keys == keys[..n] + [keys[n]];
    }
  }

  /** The batch options hold every copied parameter as the app received it, the output folder and the thread count. */
  lemma BatchOptionsCarryParams(p: Dict, outputDir: string, threads: int)
    ensures var o := BatchOptions(p, outputDir, threads);
            && (forall k :: k in CopiedParams && k != "out_folder" && k != "threads" ==> k in o && o[k] == Get(p, k))
            && o["out_folder"] == Str(outputDir) && o["threads"] == Int(threads)
  {
    CopyParamsAt(p, CopiedParams);
  }

  /**
   * For accepted parameters the per-sample required options are all present in
   * the batch options, and greedy mode carries over.
   */
  lemma BatchOptionsPassRequired(p: Dict, outputDir: string, threads: int)
    ensures GreedyModeOn(BatchOptions(p, outputDir, threads)) <==> GreedyRequested(p)
    ensures AppParamsValid(p) ==> CheckRequiredOptions(BatchOptions(p, outputDir, threads)) == Pass
  {
    var o := BatchOptions(p, outputDir, threads);
    CopyParamsAt(p, CopiedParams);
    assert CopiedParams[1] == "db_type" && CopiedParams[3] == "min_match_length" && CopiedParams[4] == "greedy_run_mode";
    assert Get(o, "greedy_run_mode") == Get(p, "greedy_run_mode");
    if AppParamsValid(p) {
      assert RequiredParams[4] == "db_type" && RequiredParams[6] == "min_match_length" && RequiredParams[7] == "greedy_run_mode";
      assert RequiredOptions == ["db_type", "min_match_length", "greedy_run_mode"];
      assert Get(o, "db_type") == Get(p, "db_type") && Get(o, "min_match_length") == Get(p, "min_match_length");
      assert forall i :: 0 <= i < |RequiredOptions| ==> !IsBlank(o, RequiredOptions[i]);
    }
  }

  /** When every copied parameter is present, the display as written builds the same options. */
  lemma AsWrittenAgreesWhenPresent(p: Dict, outputDir: string, threads: int)
    requires forall k :: k in CopiedParams ==> k in p
    ensures BatchOptionsAsWritten(p, outputDir, threads) == Success(BatchOptions(p, outputDir, threads))
  {
  }

  /**
   * Accepted parameters without `greedy_allowed_mismatches` (allowed with
   * greedy mode off) make the display as written raise KeyError.
   */
  lemma OptionalGreedyKeyRaises(p: Dict, outputDir: string, threads: int)
    requires AppParamsValid(p) && "greedy_allowed_mismatches" !in p
    ensures CheckAppParams(p) == Pass
    ensures !GreedyRequested(p)
    ensures BatchOptionsAsWritten(p, outputDir, threads) == Failure(MissingKey("greedy_allowed_mismatches"))
  {
    assert GreedyParams[0] == "greedy_allowed_mismatches";
    assert RequiredParams[3] == "tax_levels" && RequiredParams[4] == "db_type" && RequiredParams[5] == "seg_filter";
    assert RequiredParams[6] == "min_match_length" && RequiredParams[7] == "greedy_run_mode";
    assert CopiedParams[..5] == RequiredParams[3..8];
    assert CopiedParams[5] == "greedy_allowed_mismatches";
    FirstAbsentAt(CopiedParams, p, 5);
  }

  // ---------------------------------------------------------------------
  // run_kaiju_and_krona

  /** What staging the input reads returns: the input directory, the folder suffix and the samples. */
  datatype StagedInput = StagedInput(inputDir: string, folderSuffix: string, expandedInput: seq<Sample>)

  /**
   * `run_kaiju_and_krona` up to the batch run: nothing is staged or run when
   * the parameters are rejected; otherwise the batch runs over the staged
   * samples with the options built from the parameters, without dropping output.
   */
  method RunKaijuAndKrona(util: UtilConfig, params: Dict, staged: StagedInput, sizes: Sizes, exec: seq<string> -> int)
    returns (events: seq<Event>, outcome: Outcome<Error>)
    ensures CheckAppParams(params).Fail? ==> events == [] && outcome == CheckAppParams(params)
    ensures CheckAppParams(params).Pass? ==>
              var options := BatchOptions(params, OutputDir(util, staged.folderSuffix), util.threads);
              Run(events, outcome) == Batch(KaijuEnv(util, options, sizes, exec, false), staged.expandedInput)
  {
    var check := CheckAppParams(params);
    if check.Fail? {
      return [], check;
    }
    var outputDir := PathJoin(util.scratch, "output_" + staged.folderSuffix);
    var options := BatchOptions(params, outputDir, util.threads);
    events, outcome := RunKaijuBatch(util, options, sizes, exec, false, staged.expandedInput);
  }

  // ---------------------------------------------------------------------
  // _build_output_packages

  /** `'save_plots_dir' in params and str(params['save_plots_dir']) == '1'`. */
  predicate PlotsRequested(p: Dict)
  {
    "save_plots_dir" in p && ToStr(p["save_plots_dir"]) == "1"
  }

  /**
   * `_build_output_packages`: the full output directory always, then the
   * plots directory when asked for; a refused folder raises.
   */
  function OutputPackages(p: Dict, scratch: string, outputDir: string, plotsDir: string,
                          existing: set<string>, upload: string -> string): Result<seq<Package>, Error>
  {
    match PackageFolder(scratch, outputDir, "full_output.zip", "Full output of CheckM", existing, upload)
    case Failure(e) => Failure(e)
    case Success(full) =>
      if PlotsRequested(p) then
        match PackageFolder(scratch, plotsDir, "plots.zip", "Output plots from CheckM", existing, upload)
        case Failure(e) => Failure(e)
        case Success(plots) => Success([full, plots])
      else Success([full])
  }

  /** The plots are packaged exactly for `save_plots_dir` equal to the int 1 or the string '1'. */
  lemma PlotsRequestedIff(p: Dict)
    ensures PlotsRequested(p) <==> "save_plots_dir" in p && (p["save_plots_dir"] == Int(1) || p["save_plots_dir"] == Str("1"))
  {
    if "save_plots_dir" in p {
      StrIsOne(p["save_plots_dir"]);
    }
  }

  /**
   * Packaging succeeds iff both folders it needs pass `package_folder`'s
   * guards; then the full output comes first, and the plots follow exactly
   * when they were asked for.
   */
  lemma OutputPackagesShape(p: Dict, scratch: string, outputDir: string, plotsDir: string,
                            existing: set<string>, upload: string -> string)
    ensures var r := OutputPackages(p, scratch, outputDir, plotsDir, existing, upload);
            && (r.Success? <==> outputDir != scratch && outputDir in existing
                                && (PlotsRequested(p) ==> plotsDir != scratch && plotsDir in existing))
            && (r.Success? ==>
                  && |r.value| == (if PlotsRequested(p) then 2 else 1)
                  && r.value[0] == Package(upload(outputDir), "full_output.zip", "Full output of CheckM")
                  && (PlotsRequested(p) ==> r.value[1] == Package(upload(plotsDir), "plots.zip", "Output plots from CheckM")))
    ensures outputDir == scratch ==> OutputPackages(p, scratch, outputDir, plotsDir, existing, upload) == Failure(ScratchFolder)
  {
  }
}
