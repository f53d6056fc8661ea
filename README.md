# kb_kaiju batch engine: a verified model

This project models the deterministic core of the kb_kaiju KBase app, which
wraps the `kaiju` taxonomic classifier and its Krona and report tools. It
proves properties of that core. The model covers these parts:

- **The app entry point** `run_kaiju_and_krona`, up to the batch run:
  - the required-parameter check, including the conditional greedy-mode keys;
  - the options dictionary handed to the batch;
  - `_build_output_packages`.
- **The per-sample work**. For each staged sample, `_build_kaiju_command`
  resolves the database from `db_type` through a closed four-way table.
  `_validate_kaiju_options` then checks the options and the file sizes, and
  `_process_kaiju_options` appends the classifier's flags to an argv list in place.
- **The fail-fast batch loop** `run_kaiju_batch`. A process is an exit-code
  oracle, and the loop's log file and log lines are an event trace.
- **The downstream builders**. The `_validate_*`, `_process_*` and `_build_*`
  trios of `kaijuReport`, `kaiju2krona` and `ktImportText` are one model with
  the tool as a parameter.
- **OutputBuilder**:
  - the guards of `package_folder`;
  - `build_summary_table`, which reads the stats file and writes the HTML table
    and the per-bin pages;
  - `_write_dist_html_page`;
  - the figure-size rule of the two plot builders.

The modules are:

| module | file | what it holds |
|---|---|---|
| `Wrappers` | wrappers.dfy | `Option`, `Result`, and `Outcome`, the result of a check that raises or returns |
| `PyValues` | values.dfy | Python values and dicts, the blank test, `int()`, `str()`, `os.path.join`, `str.split` |
| `KaijuErrors` | errors.dfy | the exceptions raised, with the text of those the source raises itself |
| `KaijuCommand` | kaiju_command.dfy | database resolution, per-sample validation, and the classifier argv |
| `KaijuDownstream` | downstream.dfy | the three downstream command builders |
| `KaijuBatch` | batch.dfy | the batch loop |
| `OutputBuilder` | output_builder.dfy | package guards, figure size, stats reading, the summary table and pages |
| `KaijuApp` | app.dfy | the app check, the batch options, the app run, and output packages |

Some of the source's call sites disagree with each other. The model takes one
reading of each:

- **The greedy-mode flag.** The intended key is `greedy_run_mode`, the key that
  validation checks. Assembly reads `greedy_mode` instead; see Findings.
- **The nodes file.** It lives in the `nodes` field of a derived `DbPaths`
  value. The builder writes `KAIJU_NODES` into the caller's dict, but the other
  functions read `KAIJU_DB_NODES`; see Findings.
- **The per-sample dict.** The builder is handed one `Sample`, the dict that
  `_validate_kaiju_options` and `_process_kaiju_options` read under
  `input_reads`. The batch passes the whole options dict, whose `input_reads`
  is the list of samples, and the value it stores under `input_item` is never
  read.
- **The builder's writes.** `_build_kaiju_command` writes `verbose`, `threads`
  and the database paths into the caller's dict. Here they are fields of a
  `Resolved` value, and the caller's dict is left unchanged.

## Model

| member | source | states |
|---|---|---|
| PyValues.FirstBlank | lib/kb_kaiju/Utils/KaijuUtil.py:51-53 | The key found is the first key of the list that is absent, None or '', and None means no key of the list is blank |
| PyValues.FirstAbsent | lib/kb_kaiju/Utils/KaijuUtil.py:80-93 | The key found is a key of the list that the dict lacks, and None means every key is present |
| PyValues.StrIsOne | lib/kb_kaiju/Utils/KaijuUtil.py:318 | `str(v) == '1'` holds exactly for the int 1 and the string '1'. `ToStr` models `str()` |
| PyValues.DecimalRoundTrip | lib/kb_kaiju/Utils/KaijuUtil.py:173-174 | Parsing `str(code)` gives back the integer code, negative or not. `ParseInt` and `ToInt` model `int()` on strings and integers |
| PyValues.SplitJoinRoundTrip | lib/kb_kaiju/Utils/OutputBuilder.py:228 | Joining the fields that `Split` (`str.split`) gives with tabs gives back the line, and no field holds a tab |
| PyValues.SplitFirst | lib/kb_kaiju/Utils/OutputBuilder.py:228-229 | Column 0 is the text before the first tab, contains no tab, and is the whole line when the line has no tab |
| PyValues.PathJoinParts | lib/kb_kaiju/Utils/KaijuUtil.py:72 | `PathJoin` (`os.path.join`) ends with its last part, keeps its first part in front unless the last part is absolute, and is the last part when it is absolute |
| KaijuErrors.CommandFailedMessage | lib/kb_kaiju/Utils/KaijuUtil.py:173-174 | The batch failure message holds the space-joined command, and the exit code can be parsed back from its end |
| KaijuCommand.ResolveDatabase | lib/kb_kaiju/Utils/KaijuUtil.py:267-286 | Succeeds exactly for the four known tags. `kaiju_index`/`kaiju_index_pg` map to `kaiju_db.fmi`, `kaiju_index_nr` to `kaiju_db_nr.fmi`, `kaiju_index_nr_euk` to `kaiju_db_nr_euk.fmi`, all under `/data/kb_kaiju/kaijudb/<tag>` with `nodes.dmp` beside them. Any other tag is "bad db_type", and a missing or non-string tag is its own error |
| KaijuCommand.CheckFileSize | lib/kb_kaiju/Utils/KaijuUtil.py:195-207 | A size check passes iff the file exists with size > 0 |
| KaijuCommand.CheckDbFiles | lib/kb_kaiju/Utils/KaijuUtil.py:201-207 | The database check passes iff both the index and the nodes file are non-empty |
| KaijuCommand.ValidateKaijuOptions | lib/kb_kaiju/Utils/KaijuUtil.py:177-207 | Passes iff all of these hold: the three required options are non-blank; `greedy_run_mode` converts; in greedy mode `greedy_allowed_mismatches` is present and at least 1; the forward file is non-empty; the reverse file is non-empty for paired-end samples; both database files are non-empty. The first blank required option is the one reported. Built from `CheckRequiredOptions`, `CheckGreedyOptions` (189-192), `CheckInputFiles` (195-199) and `CheckDbFiles` |
| KaijuCommand.SingleEndIgnoresReverse | lib/kb_kaiju/Utils/KaijuUtil.py:197-199 | For a sample that is not paired-end, the reverse file does not affect validation |
| KaijuCommand.KaijuCommandLine | lib/kb_kaiju/Utils/KaijuUtil.py:265-293 | Building a command never reports a failed process |
| KaijuCommand.FlagEmitted | lib/kb_kaiju/Utils/KaijuUtil.py:226-262 | Each flag is emitted iff its block's condition holds, and then carries that block's value, exactly once |
| KaijuCommand.EmittedFlags | lib/kb_kaiju/Utils/KaijuUtil.py:226-262 | The same, for all twelve flags at once |
| KaijuCommand.EmittedOrdered | lib/kb_kaiju/Utils/KaijuUtil.py:226-262 | The emitted flags follow the fixed order `-t -f -i -j -o -x -m -a -e -s -z -v`, whatever the options |
| KaijuCommand.FlattenAt | lib/kb_kaiju/Utils/KaijuUtil.py:226-262 | In the argv, each argument's flag word is immediately followed by its value when it has one |
| KaijuCommand.CommandLine.Append | lib/kb_kaiju/Utils/KaijuUtil.py:227 | `command_list.append(word)` adds the word at the end and changes nothing else |
| KaijuCommand.AppendWhen | lib/kb_kaiju/Utils/KaijuUtil.py:226-228 | A guarded block appends its flag and value when the guard holds, and nothing otherwise |
| KaijuCommand.ProcessDbOptions | lib/kb_kaiju/Utils/KaijuUtil.py:226-231 | Appends the words of the `-t` and `-f` blocks |
| KaijuCommand.ProcessReadOptions | lib/kb_kaiju/Utils/KaijuUtil.py:232-242 | Appends the words of the `-i`, `-j` and `-o` blocks |
| KaijuCommand.ProcessFilterOptions | lib/kb_kaiju/Utils/KaijuUtil.py:243-247 | Appends the words of the `-x` and `-m` blocks |
| KaijuCommand.ProcessGreedyOptions | lib/kb_kaiju/Utils/KaijuUtil.py:248-256 | Appends the words of the greedy blocks, with `-e` and `-s` nested under `-a greedy` |
| KaijuCommand.ProcessRunOptions | lib/kb_kaiju/Utils/KaijuUtil.py:258-262 | Appends the words of the `-z` and `-v` blocks |
| KaijuCommand.ProcessKaijuOptions | lib/kb_kaiju/Utils/KaijuUtil.py:226-262 | On success, appends exactly the flattened arguments of the specification. When an `int()` conversion raises, it reports that error and keeps the words already appended |
| KaijuCommand.BuildKaijuCommand | lib/kb_kaiju/Utils/KaijuUtil.py:265-293 | The argv it returns, or the error it raises, is that of the command-line specification |
| KaijuCommand.InvocationArgs | lib/kb_kaiju/Utils/KaijuUtil.py:286-291 | For `KaijuInvocation` (`_build_kaiju_command`) and `KaijuArgs` (`_process_kaiju_options`, 226-262): a successful build passed database resolution, validation and the `seg_filter` conversion, and its arguments are the selected blocks |
| KaijuCommand.KaijuArgvShape | lib/kb_kaiju/Utils/KaijuUtil.py:290-291 | argv[0] is `/kb/module/kaiju/bin/kaiju`. The flags follow in the fixed order, each valued flag immediately followed by its value |
| KaijuCommand.KaijuBuildNeedsFiles | lib/kb_kaiju/Utils/KaijuUtil.py:288 | Nothing is built unless the options validate and the reads and database files are non-empty |
| KaijuCommand.KaijuSampleFlags | lib/kb_kaiju/Utils/KaijuUtil.py:226-242 | `-t`/`-f` carry the nodes and index files. `-i` carries the forward file. `-j` appears iff the sample is paired-end. `-o` is the output folder joined with `<name>.kaiju` |
| KaijuCommand.KaijuFilterFlags | lib/kb_kaiju/Utils/KaijuUtil.py:243-247 | `-x` appears iff `int(seg_filter) == 1`. `-m` appears iff `min_match_length` is truthy, and then carries `str()` of it |
| KaijuCommand.KaijuGreedyFlags | lib/kb_kaiju/Utils/KaijuUtil.py:248-256 | `-a greedy` appears iff greedy mode is on. `-e`/`-s` appear only in greedy mode and only for truthy values, and carry `str()` of them |
| KaijuCommand.KaijuRunFlags | lib/kb_kaiju/Utils/KaijuUtil.py:258-262 | When the app has more than one thread, `-z` carries the app's thread count. Otherwise it carries the caller's `threads` when that is truthy. `-v` appears iff verbose (lines 270-272) |
| KaijuCommand.BadDbTypeRejectedFirst | lib/kb_kaiju/Utils/KaijuUtil.py:277-288 | An unknown `db_type` is rejected before any file is checked or any argument is built |
| KaijuCommand.ValidatedGreedyModeConverts | lib/kb_kaiju/Utils/KaijuUtil.py:243-248 | Once validation passes, argv assembly fails iff `seg_filter` does not convert to an integer |
| KaijuCommand.GreedyModeKeyAbsentFails | lib/kb_kaiju/Utils/KaijuUtil.py:248 | `KaijuArgsAsWritten` models line 248 as written: assembly without a `greedy_mode` key raises on `int(None)` even for validated options, while the intended assembly succeeds. The line is reached only once the NameError at line 211 and the KeyError at line 206 are gone |
| KaijuCommand.NodesKeyNeverWritten | lib/kb_kaiju/Utils/KaijuUtil.py:274 | `ValidateKaijuOptionsAsWritten` and `CheckDbFilesAsWritten` model lines 201-207 as written: every sample that the intended validation accepts fails with KeyError('KAIJU_DB_NODES'), unless the caller already set that key |
| KaijuDownstream.CheckSettings | lib/kb_kaiju/Utils/KaijuUtil.py:296-310 | A validator passes iff every setting its raised flags ask for is present |
| KaijuDownstream.ValidateDownstreamAsWritten | lib/kb_kaiju/Utils/KaijuUtil.py:296-310 | As written, the validators pass iff the flagged settings are present |
| KaijuDownstream.ValidateDownstream | lib/kb_kaiju/Utils/KaijuUtil.py:296-310 | The corrected validators pass iff the flagged settings are present. A failure names a setting that really is missing, under the caller's subcommand (the Findings row for lines 305-306) |
| KaijuDownstream.OutFolderMessageNamesBinFolder | lib/kb_kaiju/Utils/KaijuUtil.py:305-306 | With `out_folder` the only missing setting, the message as written names `bin_folder`, which is present. The corrected message names `out_folder` |
| KaijuDownstream.DefaultValidationPasses | lib/kb_kaiju/Utils/KaijuUtil.py:322-332 | Called with the default flags, as the builders call them, the validators never raise |
| KaijuDownstream.ProcessDownstreamOptions | lib/kb_kaiju/Utils/KaijuUtil.py:313-319 | Appends `-t str(thread)` when `thread` is truthy, then `--quiet` when `str(quiet) == '1'`, and nothing else |
| KaijuDownstream.BuildDownstreamCommand | lib/kb_kaiju/Utils/KaijuUtil.py:400-410 | The argv is the tool's binary followed by its flags |
| KaijuDownstream.QuietExactlyForOne | lib/kb_kaiju/Utils/KaijuUtil.py:391-397 | `--quiet` is emitted iff `quiet` is the int 1 or the string '1' |
| KaijuDownstream.DownstreamArgvShape | lib/kb_kaiju/Utils/KaijuUtil.py:361-371 | For `DownstreamCommandLine`: argv[0] is the binary. The next words are `-t str(thread)` iff `thread` is truthy. `--quiet` comes last iff `quiet` is 1 or '1'. The length is exactly that |
| KaijuBatch.RunKaijuBatch | lib/kb_kaiju/Utils/KaijuUtil.py:150-174 | The loop's events and outcome are `Batch` over the samples: the `StepOf` of each sample in list order, up to and including the first that fails. Lines 134-147 are left out, see Findings |
| KaijuBatch.AsWrittenStartsNothing | lib/kb_kaiju/Utils/KaijuUtil.py:134-147 | With `BatchAsWritten`, each call raises NameError on `expanded_input` and starts no process. Without that statement, a batch whose samples all pass starts one process per sample |
| KaijuBatch.BatchStopsAfterFailure | lib/kb_kaiju/Utils/KaijuUtil.py:172-174 | Once a prefix of the samples fails, no later sample affects the run |
| KaijuBatch.RunEventsExecs | lib/kb_kaiju/Utils/KaijuUtil.py:161-164 | One iteration starts exactly its command, once |
| KaijuBatch.StepExecs | lib/kb_kaiju/Utils/KaijuUtil.py:155-164 | A sample whose command builds starts exactly that command. One whose build raises starts nothing |
| KaijuBatch.BatchPassIff | lib/kb_kaiju/Utils/KaijuUtil.py:151-174 | The batch succeeds iff every sample builds and its command exits with 0 |
| KaijuBatch.BatchAllPass | lib/kb_kaiju/Utils/KaijuUtil.py:151-171 | When every sample passes, every sample's command is started exactly once, in list order |
| KaijuBatch.BatchFailsAt | lib/kb_kaiju/Utils/KaijuUtil.py:169-174 | When sample k is the first that fails, the run is the passing prefix plus sample k's step, and its outcome is that step's error. Only the commands up to k are started |
| KaijuBatch.StepFailure | lib/kb_kaiju/Utils/KaijuUtil.py:172-174 | A failing step carries its builder's error, or the command with its nonzero exit code |
| KaijuBatch.StepLogDiscipline | lib/kb_kaiju/Utils/KaijuUtil.py:158-167 | In one iteration the process logs to a file iff `dropOutput`. That file is opened just before the process and closed just after it, before the exit code is inspected |
| KaijuBatch.BatchLogDiscipline | lib/kb_kaiju/Utils/KaijuUtil.py:158-167 | The same holds for every process the batch starts. Without `dropOutput` no log file is opened |
| OutputBuilder.PackageFolder | lib/kb_kaiju/Utils/OutputBuilder.py:156-168 | The scratch directory is refused first, then a folder that does not exist. Otherwise the package has the upload's id, and the caller's name and description as name and label |
| OutputBuilder.MissingFolderMessage | lib/kb_kaiju/Utils/OutputBuilder.py:161-162 | The missing-folder message ends with the folder's path |
| OutputBuilder.FigureSizeBounds | lib/kb_kaiju/Utils/OutputBuilder.py:310-316 | For `FigureSize`: the height is 5. The width is at most 20 and at most 2N. It is 20 exactly from 20 samples on, and at least N below that |
| OutputBuilder.PlotFigureSize | lib/kb_kaiju/Utils/OutputBuilder.py:285-288 | Both plots, drawn for five sample labels, are 10 by 5 |
| OutputBuilder.FigureWidthDrops | lib/kb_kaiju/Utils/OutputBuilder.py:392-398 | For every N >= 1, the width for N samples is smaller than for N - 1 exactly when N is 10 |
| OutputBuilder.ParseLine | lib/kb_kaiju/Utils/OutputBuilder.py:228-231 | A line is malformed iff it has no tab. On success the bin id is the text before the first tab |
| OutputBuilder.ReadBinStats | lib/kb_kaiju/Utils/OutputBuilder.py:221-231 | The reading loop gives the records, or the error, of the stats specification |
| OutputBuilder.ParseStatsStopsAfterFailure | lib/kb_kaiju/Utils/OutputBuilder.py:222-231 | Once a prefix of the file fails, the rest of the file is never looked at |
| OutputBuilder.DataLinesMembers | lib/kb_kaiju/Utils/OutputBuilder.py:223-227 | Exactly the lines that do not start with `#` are kept. Lines carry their `'\n'`, as file iteration yields them, so none is empty and `if not line` never skips one |
| OutputBuilder.BlankLineRaises | lib/kb_kaiju/Utils/OutputBuilder.py:224-230 | A blank line, `"\n"`, is not skipped: it has no second column, so reading raises on it whatever follows |
| OutputBuilder.ParseStatsRows | lib/kb_kaiju/Utils/OutputBuilder.py:221-231 | For `ParseStats`: the file is read iff each data line is. There is then one record per data line, in file order, and each record is what its line gives |
| OutputBuilder.HtmlStream.Write | lib/kb_kaiju/Utils/OutputBuilder.py:247 | `html.write` adds its text at the end of what was written |
| OutputBuilder.FileStore.Store | lib/kb_kaiju/Utils/OutputBuilder.py:486-498 | Writing a file replaces the content at that path and leaves every other file alone |
| OutputBuilder.WriteLines | lib/kb_kaiju/Utils/OutputBuilder.py:488-497 | Successive writes append their texts in order |
| OutputBuilder.WriteDistPage | lib/kb_kaiju/Utils/OutputBuilder.py:483-498 | The bin's page holds the ten writes of `DistPageWrites` (488-497), and every other file is unchanged |
| OutputBuilder.WriteHeaderCells | lib/kb_kaiju/Utils/OutputBuilder.py:250-251 | One header cell is written per field, in order |
| OutputBuilder.WriteHeader | lib/kb_kaiju/Utils/OutputBuilder.py:247-252 | Writes the table opening and the header row of the specification |
| OutputBuilder.WriteFieldCells | lib/kb_kaiju/Utils/OutputBuilder.py:262-269 | One cell is written per field, in order |
| OutputBuilder.WriteRow | lib/kb_kaiju/Utils/OutputBuilder.py:255-270 | Writes the bin's row. The bin's page is written iff its plot exists, and the files are otherwise unchanged |
| OutputBuilder.WriteRows | lib/kb_kaiju/Utils/OutputBuilder.py:254-270 | Writes one row per record, in record order, and the pages of exactly the linked bins |
| OutputBuilder.BuildSummaryTable | lib/kb_kaiju/Utils/OutputBuilder.py:214-272 | Without a stats file nothing is written. An unreadable file raises before any write. Otherwise the table specification is written, with the pages of the linked bins |
| OutputBuilder.HeaderShape | lib/kb_kaiju/Utils/OutputBuilder.py:234-252 | The header is "Bin Name" followed by the twelve display names, in order, with nothing else in the row |
| OutputBuilder.RowShape | lib/kb_kaiju/Utils/OutputBuilder.py:255-270 | For `RowWrites` and `FieldCell`: a row has 1 + 12 cells between its tags. An absent field gives `<td></td>`. A present field gives `str` of its value, or the rounded form for a rounded field |
| OutputBuilder.RoundedFields | lib/kb_kaiju/Utils/OutputBuilder.py:244-245 | Only Completeness and Contamination are rounded |
| OutputBuilder.BinCellLinksIffPlot | lib/kb_kaiju/Utils/OutputBuilder.py:256-261 | `BinCell` links to `<bid>.html` iff `<html_dir>/<bid><ext>` exists |
| OutputBuilder.RowsWritesAt | lib/kb_kaiju/Utils/OutputBuilder.py:254-270 | The rows are 15 writes each, and row j is record j's row |
| OutputBuilder.TableShape | lib/kb_kaiju/Utils/OutputBuilder.py:247-272 | `TableWrites` is the header, one row per record in record order, and the closing tag |
| OutputBuilder.PagePathsMembers | lib/kb_kaiju/Utils/OutputBuilder.py:256-258 | A page path is written for exactly the bins whose plot exists |
| OutputBuilder.DistPagesKeys | lib/kb_kaiju/Utils/OutputBuilder.py:256-258 | After the table, the files are the earlier files plus exactly the linked bins' pages |
| OutputBuilder.DistPagesKeepOthers | lib/kb_kaiju/Utils/OutputBuilder.py:256-258 | A file that is no bin's page is left as it was |
| OutputBuilder.DistPagesContent | lib/kb_kaiju/Utils/OutputBuilder.py:256-258 | Each page path holds the page of a linked bin with that path |
| OutputBuilder.DistPageLinks | lib/kb_kaiju/Utils/OutputBuilder.py:493-495 | The page links back to report.html and has an img whose src is `<bid><ext>` |
| KaijuApp.CheckParams | lib/kb_kaiju/Utils/KaijuUtil.py:37-62 | Passes iff three things hold: no required key is absent, None or ''; `greedy_run_mode` converts; in greedy mode the greedy keys are non-blank. A blank required key is reported iff there is one, and then the first. A greedy key is reported only in greedy mode, and only when blank |
| KaijuApp.GreedyKeysIgnoredWhenOff | lib/kb_kaiju/Utils/KaijuUtil.py:55-62 | With greedy mode off, dicts that agree on the required keys get the same verdict, and no greedy key is ever reported |
| KaijuApp.AppGreedyKeysIgnoredWhenOff | lib/kb_kaiju/Utils/KaijuUtil.py:39-62 | The same for `CheckAppParams`, the check with the app's eleven required keys |
| KaijuApp.CopyParamsAt | lib/kb_kaiju/Utils/KaijuUtil.py:80-93 | `CopyParams` holds exactly the listed keys, each with the value `params.get` gives |
| KaijuApp.BatchOptionsCarryParams | lib/kb_kaiju/Utils/KaijuUtil.py:80-93 | `BatchOptions` holds each copied parameter as received, the output folder, and the app's thread count |
| KaijuApp.BatchOptionsPassRequired | lib/kb_kaiju/Utils/KaijuUtil.py:80-94 | Greedy mode carries over to the batch options. For accepted parameters, the per-sample required-option check passes |
| KaijuApp.AsWrittenAgreesWhenPresent | lib/kb_kaiju/Utils/KaijuUtil.py:80-93 | When every copied key is present, the display as written builds the same options |
| KaijuApp.OptionalGreedyKeyRaises | lib/kb_kaiju/Utils/KaijuUtil.py:87-88 | Accepted parameters without `greedy_allowed_mismatches`, and so with greedy mode off, make `BatchOptionsAsWritten`, the display as written, raise KeyError |
| KaijuApp.RunKaijuAndKrona | lib/kb_kaiju/Utils/KaijuUtil.py:37-94 | Rejected parameters (`CheckAppParams`) run nothing and report the check's error. Accepted ones run the batch over the staged samples, with the options built from the parameters |
| KaijuApp.PlotsRequestedIff | lib/kb_kaiju/Utils/KaijuUtil.py:430 | `PlotsRequested`: the plots are packaged iff `save_plots_dir` is present and is the int 1 or the string '1' |
| KaijuApp.OutputPackagesShape | lib/kb_kaiju/Utils/KaijuUtil.py:413-440 | `OutputPackages` succeeds iff the folders it needs pass the guards. The full output comes first, and the plots follow exactly when asked for |

## Left out

- Process execution, the log file, `log()` and the working directory: a process is an exit-code oracle, and the file and the log lines are events in a trace.
- `os.path.getsize`, `os.path.exists` and `os.path.isfile`: they are a size map and sets of existing paths, taken as fixed during one call.
- Staging the input reads (`DataStagingUtils`): its answer is the `StagedInput` parameter.
- The upload to storage (`file_to_shock`): it is the `upload` function parameter, and the storage id is opaque.
- The report (`KBaseReport`) and the `uuid` in its name: not modelled.
- The matplotlib/numpy plotting and the colour shuffle: floats and library calls. Only the integer figure-size rule is modelled.
- `round(v, 3)`: floats; it is the `round3` oracle of `TableEnv`.
- `ast.literal_eval`: it is the `parse` oracle of the stats reader.
- The CSS text of the report page, `_copy_file_ignore_errors` and `_copy_ref_dist_plots`: constant text and filesystem copies.
- The blocks at KaijuUtil.py:134-147 and 211-224: each is the first statement of its function, and each evaluates the undefined name `expanded_input`. So every call of `run_kaiju_batch` and `_process_kaiju_options` raises NameError on entry (see Findings). The model leaves them out and models the code after them.
- The commented-out pipeline steps at KaijuUtil.py:99-114 are not modelled.
- KaijuCommand.Sample: the staged sample dicts always carry string `name`, `type` and `fwd_file`. So the KeyError of `['fwd_file']`, `['type']` and `['name']` (KaijuUtil.py:195, 197, 239 and 160) is not modelled, and neither is the TypeError of a non-string name at line 239. Only `rev_file` may be absent.
- `html_dir` in `run_kaiju_and_krona`: it is computed but not used by the modelled steps.
- `PyValues.ParseInt`: models `int()` on decimal digit strings with an optional sign. It does not accept whitespace, underscores or floats.
- `PyValues.ToStr`: gives `str()` only for None, booleans, integers and strings. Lists and floats are not represented.
- `KaijuBatch.StepFailure`: does not state that a builder error is never a failed-process error, because the batch is proved for any builder. `KaijuCommand.KaijuCommandLine` states it for the real builder.
- `OutputBuilder.BinCell`: keeps the source's missing `</a>` in the link cell (OutputBuilder.py:259), because the markup is modelled as written.
- `OutputBuilder.FigureSizeBounds`: states bounds and the point where the width saturates, rather than repeating the three-way rule.
- The source's `self.output_dir`, `self.plots_dir` and `self.DIST_PLOT_EXT` are never set by the OutputBuilder constructor. Here they are parameters.
- `_build_output_packages`' `else` branch (selected output) is unreachable behind `if True` and is not modelled.

## Findings

| source | as written | input that shows it | evidently intended | confidence | as-written member | corrected member |
|---|---|---|---|---|---|---|
| lib/kb_kaiju/Utils/KaijuUtil.py:134-147 | `run_kaiju_batch` opens with a dictionary display that evaluates `expanded_input`, a name it cannot see. `_process_kaiju_options` does the same at lines 211-224 | any call: NameError before the first sample is built | drop the copied display | high, not executed | KaijuBatch.AsWrittenStartsNothing | KaijuBatch.RunKaijuBatch |
| lib/kb_kaiju/Utils/KaijuUtil.py:248 | the greedy block converts `options.get('greedy_mode')`, a key nothing sets. It is reached only once the NameError at line 211 is gone | any validated options without a `greedy_mode` key: `int(None)` raises TypeError | convert `greedy_run_mode`, the key validation checks | high, not executed | KaijuCommand.GreedyModeKeyAbsentFails | KaijuCommand.ValidatedGreedyModeConverts |
| lib/kb_kaiju/Utils/KaijuUtil.py:274 | the nodes path is stored under `KAIJU_NODES`, while lines 205 and 226 read `KAIJU_DB_NODES` | any options the intended validation accepts, without a preset `KAIJU_DB_NODES`: KeyError at line 206 | store and read one key | high, not executed | KaijuCommand.NodesKeyNeverWritten | KaijuCommand.ValidateKaijuOptions |
| lib/kb_kaiju/Utils/KaijuUtil.py:87-88 | the batch options read `params['greedy_allowed_mismatches']` and `params['greedy_min_match_score']` | parameters with `greedy_run_mode` 0 and no `greedy_allowed_mismatches`: they pass the check, then raise KeyError | read the optional greedy keys with `params.get` | medium, not executed | KaijuApp.OptionalGreedyKeyRaises | KaijuApp.BatchOptionsPassRequired |
| lib/kb_kaiju/Utils/KaijuUtil.py:305-306 | a missing `out_folder` is reported as "without bin_folder option set" (also lines 344-345 and 383-384) | `checkBin` and `checkOut` set, `bin_folder` present, `out_folder` absent | name `out_folder` in the message | high, not executed | KaijuDownstream.OutFolderMessageNamesBinFolder | KaijuDownstream.ValidateDownstream |
