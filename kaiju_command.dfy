/**
 * KaijuUtil's classifier command builder: database resolution
 * (`_build_kaiju_command`), the per-sample option check
 * (`_validate_kaiju_options`) and argv assembly (`_process_kaiju_options`).
 *
 * The source writes its derived values (`verbose`, `threads`, the database
 * paths) into the caller's options dict; here they are the fields of a
 * separate `Resolved` value and the caller's dict is left as it was.
 */
module KaijuCommand {
  import opened Wrappers
  import opened PyValues
  import opened KaijuErrors

  /** One staged sample: the `name`, `type`, `fwd_file` and `rev_file` entries of its dict. */
  datatype Sample = Sample(name: string, readType: string, fwdFile: string, revFile: Option<string>)

  /** The KaijuUtil attributes the builder reads: `scratch` and `threads` from the app config. */
  datatype UtilConfig = UtilConfig(scratch: string, threads: int)

  /** `os.path.getsize` as a map from path to size; a path outside the map does not exist. */
  type Sizes = map<string, nat>

  const PairedEnd := "PE"
  const KaijuBin := "/kb/module/kaiju/bin/kaiju"
  const KaijuDbRoot := "/data/kb_kaiju/kaijudb"

  // ---------------------------------------------------------------------
  // Database resolution

  /** The database directory and the two files in it that the classifier reads. */
  datatype DbPaths = DbPaths(dir: string, nodes: string, index: string)

  /** The index file name of each recognised `db_type` tag. */
  function IndexFileName(tag: string): Option<string>
  {
    if tag == "kaiju_index" || tag == "kaiju_index_pg" then Some("kaiju_db.fmi")
    else if tag == "kaiju_index_nr" then Some("kaiju_db_nr.fmi")
    else if tag == "kaiju_index_nr_euk" then Some("kaiju_db_nr_euk.fmi")
    else None
  }

  predicate KnownDbType(tag: string)
  {
    tag == "kaiju_index" || tag == "kaiju_index_pg" || tag == "kaiju_index_nr" || tag == "kaiju_index_nr_euk"
  }

  /** The directory and file paths `_build_kaiju_command` derives from `options['db_type']`. */
  function ResolveDatabase(options: Dict): (r: Result<DbPaths, Error>)
    ensures "db_type" !in options ==> r == Failure(MissingKey("db_type"))
    ensures "db_type" in options && !options["db_type"].Str? ==> r == Failure(NotAString("db_type"))
    ensures "db_type" in options && options["db_type"].Str? && !KnownDbType(options["db_type"].s)
            ==> r == Failure(BadDbType(options["db_type"].s))
    ensures r.Success? <==> "db_type" in options && options["db_type"].Str? && KnownDbType(options["db_type"].s)
    ensures r.Success? ==>
            var tag := options["db_type"].s;
            var dir := KaijuDbRoot + "/" + tag;
            && r.value.dir == dir
            && r.value.nodes == dir + "/nodes.dmp"
            && r.value.index == dir + "/" + (if tag == "kaiju_index_nr" then "kaiju_db_nr.fmi"
                                             else if tag == "kaiju_index_nr_euk" then "kaiju_db_nr_euk.fmi"
                                             else "kaiju_db.fmi")
  {
    if "db_type" !in options then Failure(MissingKey("db_type"))
    else if !options["db_type"].Str? then Failure(NotAString("db_type"))
    else
      var tag := options["db_type"].s;
      var dir := PathJoin(KaijuDbRoot, tag);
      match IndexFileName(tag)
      case None => Failure(BadDbType(tag))
      case Some(file) => Success(DbPaths(dir, PathJoin(dir, "nodes.dmp"), PathJoin(dir, file)))
  }

  /** The options as the builder sees them after `_build_kaiju_command` has added its derived values. */
  datatype Resolved = Resolved(options: Dict, sample: Sample, verbose: bool, threads: Value, db: DbPaths)

  /** The builder's `threads` override applies only when the app's thread count exceeds 1. */
  function Resolve(util: UtilConfig, options: Dict, sample: Sample, db: DbPaths, verbose: bool): Resolved
  {
    Resolved(options, sample, verbose, if util.threads > 1 then Int(util.threads) else Get(options, "threads"), db)
  }

  // ---------------------------------------------------------------------
  // Per-sample validation

  const RequiredOptions: seq<string> := ["db_type", "min_match_length", "greedy_run_mode"]

  /** `int(options['greedy_run_mode']) == 1`, for a key that may be absent. */
  predicate GreedyModeOn(o: Dict)
  {
    ToInt(Get(o, "greedy_run_mode")) == Some(1)
  }

  /** What the option part of `_validate_kaiju_options` demands. */
  predicate OptionsValid(o: Dict)
  {
    && (forall k :: k in RequiredOptions ==> !IsBlank(o, k))
    && ToInt(Get(o, "greedy_run_mode")).Some?
    && (GreedyModeOn(o) ==>
          "greedy_allowed_mismatches" in o
          && ToInt(o["greedy_allowed_mismatches"]).Some?
          && ToInt(o["greedy_allowed_mismatches"]).value >= 1)
  }

  predicate NonEmptyFile(sizes: Sizes, path: string)
  {
    path in sizes && sizes[path] > 0
  }

  /** What the file part of `_validate_kaiju_options` demands: reads files and both database files non-empty. */
  predicate FilesValid(s: Sample, db: DbPaths, sizes: Sizes)
  {
    && NonEmptyFile(sizes, s.fwdFile)
    && (s.readType == PairedEnd ==> s.revFile.Some? && NonEmptyFile(sizes, s.revFile.value))
    && NonEmptyFile(sizes, db.index)
    && NonEmptyFile(sizes, db.nodes)
  }

  function CheckRequiredOptions(o: Dict): Outcome<Error>
  {
    match FirstBlank(RequiredOptions, o)
    case Some(k) => Fail(MissingOption(k))
    case None => Pass
  }

  function CheckGreedyOptions(o: Dict): Outcome<Error>
  {
    if "greedy_run_mode" !in o then Pass
    else match ToInt(o["greedy_run_mode"])
      case None => Fail(NotAnInteger("greedy_run_mode", o["greedy_run_mode"]))
      case Some(mode) =>
        if mode != 1 then Pass
        else if "greedy_allowed_mismatches" !in o then Fail(GreedyOptionRequired("greedy_allowed_mismatches"))
        else match ToInt(o["greedy_allowed_mismatches"])
          case None => Fail(NotAnInteger("greedy_allowed_mismatches", o["greedy_allowed_mismatches"]))
          case Some(n) => if n < 1 then Fail(GreedyOptionRequired("greedy_allowed_mismatches")) else Pass
  }

  /** `if not os.path.getsize(path) > 0: raise ...`; a missing file raises OSError first. */
  function CheckFileSize(sizes: Sizes, path: string, what: string): (out: Outcome<Error>)
    ensures out.Pass? <==> NonEmptyFile(sizes, path)
  {
    if path !in sizes then Fail(FileNotFound(path))
    else if sizes[path] > 0 then Pass
    else Fail(EmptyFile(what, path))
  }

  function CheckInputFiles(s: Sample, sizes: Sizes): Outcome<Error>
  {
    match CheckFileSize(sizes, s.fwdFile, "fwd reads")
    case Fail(e) => Fail(e)
    case Pass =>
      if s.readType != PairedEnd then Pass
      else match s.revFile
        case None => Fail(MissingKey("rev_file"))
        case Some(rev) => CheckFileSize(sizes, rev, "rev reads")
  }

  function CheckDbFiles(db: DbPaths, sizes: Sizes): (out: Outcome<Error>)
    ensures out.Pass? <==> NonEmptyFile(sizes, db.index) && NonEmptyFile(sizes, db.nodes)
  {
    match CheckFileSize(sizes, db.index, "KAIJU_DB_PATH")
    case Fail(e) => Fail(e)
    case Pass => CheckFileSize(sizes, db.nodes, "KAIJU_DB_NODES")
  }

  /** `_validate_kaiju_options`: required options, the greedy condition, then the files, in that order. */
  function ValidateKaijuOptions(r: Resolved, sizes: Sizes): (out: Outcome<Error>)
    ensures out.Pass? <==> OptionsValid(r.options) && FilesValid(r.sample, r.db, sizes)
    ensures FirstBlank(RequiredOptions, r.options).Some? ==>
            out == Fail(MissingOption(FirstBlank(RequiredOptions, r.options).value))
  {
    match CheckRequiredOptions(r.options)
    case Fail(e) => Fail(e)
    case Pass =>
      match CheckGreedyOptions(r.options)
      case Fail(e) => Fail(e)
      case Pass =>
        match CheckInputFiles(r.sample, sizes)
        case Fail(e) => Fail(e)
        case Pass => CheckDbFiles(r.db, sizes)
  }

  /** The reverse reads file is looked at only for paired-end samples. */
  lemma SingleEndIgnoresReverse(r: Resolved, sizes: Sizes, rev: Option<string>)
    requires r.sample.readType != PairedEnd
    ensures ValidateKaijuOptions(r, sizes) == ValidateKaijuOptions(r.(sample := r.sample.(revFile := rev)), sizes)
  {
  }


  // ---------------------------------------------------------------------
  // Argument vector

  /** The classifier's flags, in the order `_process_kaiju_options` emits them. */
  datatype Flag = Nodes | Index | Forward | Reverse | Output | SegFilter | MinMatch
                | Greedy | Mismatches | MinScore | Threads | Verbose

  function Token(f: Flag): string
  {
    match f
    case Nodes => "-t"
    case Index => "-f"
    case Forward => "-i"
    case Reverse => "-j"
    case Output => "-o"
    case SegFilter => "-x"
    case MinMatch => "-m"
    case Greedy => "-a"
    case Mismatches => "-e"
    case MinScore => "-s"
    case Threads => "-z"
    case Verbose => "-v"
  }

  /** The position of each flag in the fixed emission order. */
  function Rank(f: Flag): nat
  {
    match f
    case Nodes => 0
    case Index => 1
    case Forward => 2
    case Reverse => 3
    case Output => 4
    case SegFilter => 5
    case MinMatch => 6
    case Greedy => 7
    case Mismatches => 8
    case MinScore => 9
    case Threads => 10
    case Verbose => 11
  }

  /** One emitted flag, with the value that follows it on the command line, if any. */
  datatype Arg = Arg(flag: Flag, value: Option<string>)

  function ArgTokens(a: Arg): seq<string>
  {
    match a.value
    case None => [Token(a.flag)]
    case Some(v) => [Token(a.flag), v]
  }

  /** The command-line words of a list of arguments. */
  function Flatten(args: seq<Arg>): seq<string>
    decreases |args|
  {
    if args == [] then [] else Flatten(args[..|args| - 1]) + ArgTokens(args[|args| - 1])
  }

  /** Some argument of `args` carries flag `f`. */
  predicate HasFlag(args: seq<Arg>, f: Flag)
  {
    exists a :: a in args && a.flag == f
  }

  /** Flags appear in strictly increasing rank: the fixed order, each at most once. */
  predicate Ordered(args: seq<Arg>)
  {
    forall i, j :: 0 <= i < j < |args| ==> Rank(args[i].flag) < Rank(args[j].flag)
  }

  /** One `if cond: command_list.append(...)` block of `_process_kaiju_options`. */
  datatype Candidate = Candidate(on: bool, arg: Arg)

  /** The arguments of the candidates whose condition holds, in order. */
  function Select(c: seq<Candidate>): seq<Arg>
    decreases |c|
  {
    if c == [] then []
    else Select(c[..|c| - 1]) + (if c[|c| - 1].on then [c[|c| - 1].arg] else [])
  }

  /** `os.path.join(str(out_folder), name + '.kaiju')`. */
  function OutPath(o: Dict, s: Sample): string
  {
    PathJoin(ToStr(Get(o, "out_folder")), s.name + ".kaiju")
  }

  /** `str(sample.get('rev_file'))`. */
  function RevArg(s: Sample): string
  {
    match s.revFile
    case None => "None"
    case Some(p) => p
  }

  /**
   * The condition of the block that emits flag `f`, once `int(seg_filter) == 1`
   * and `int(greedy_run_mode) == 1` are known.
   */
  function Emits(r: Resolved, segOn: bool, greedyOn: bool, f: Flag): bool
  {
    var o := r.options;
    match f
    case Nodes => r.db.nodes != ""
    case Index => r.db.index != ""
    case Forward => r.sample.fwdFile != ""
    case Reverse => r.sample.readType == PairedEnd
    case Output => Truthy(Get(o, "out_folder"))
    case SegFilter => segOn
    case MinMatch => Truthy(Get(o, "min_match_length"))
    case Greedy => greedyOn
    case Mismatches => greedyOn && Truthy(Get(o, "greedy_allowed_mismatches"))
    case MinScore => greedyOn && Truthy(Get(o, "greedy_min_match_score"))
    case Threads => Truthy(r.threads)
    case Verbose => r.verbose
  }

  /** The words the block of flag `f` appends: the flag and its value, if any. */
  function ArgFor(r: Resolved, f: Flag): Arg
  {
    var o := r.options;
    match f
    case Nodes => Arg(Nodes, Some(r.db.nodes))
    case Index => Arg(Index, Some(r.db.index))
    case Forward => Arg(Forward, Some(r.sample.fwdFile))
    case Reverse => Arg(Reverse, Some(RevArg(r.sample)))
    case Output => Arg(Output, Some(OutPath(o, r.sample)))
    case SegFilter => Arg(SegFilter, None)
    case MinMatch => Arg(MinMatch, Some(ToStr(Get(o, "min_match_length"))))
    case Greedy => Arg(Greedy, Some("greedy"))
    case Mismatches => Arg(Mismatches, Some(ToStr(Get(o, "greedy_allowed_mismatches"))))
    case MinScore => Arg(MinScore, Some(ToStr(Get(o, "greedy_min_match_score"))))
    case Threads => Arg(Threads, Some(ToStr(r.threads)))
    case Verbose => Arg(Verbose, None)
  }

  /** The block of `_process_kaiju_options` that emits flag `f`. */
  function Block(r: Resolved, segOn: bool, greedyOn: bool, f: Flag): Candidate
  {
    Candidate(Emits(r, segOn, greedyOn, f), ArgFor(r, f))
  }

  /** The database blocks: `-t` nodes file, `-f` index file. */
  function DbBlocks(r: Resolved, segOn: bool, greedyOn: bool): seq<Candidate>
  {
    [Block(r, segOn, greedyOn, Nodes), Block(r, segOn, greedyOn, Index)]
  }

  /** The reads and output blocks: `-i`, `-j`, `-o`. */
  function ReadBlocks(r: Resolved, segOn: bool, greedyOn: bool): seq<Candidate>
  {
    [Block(r, segOn, greedyOn, Forward), Block(r, segOn, greedyOn, Reverse), Block(r, segOn, greedyOn, Output)]
  }

  /** The blocks after the `int(seg_filter)` conversion: `-x`, `-m`. */
  function FilterBlocks(r: Resolved, segOn: bool, greedyOn: bool): seq<Candidate>
  {
    [Block(r, segOn, greedyOn, SegFilter), Block(r, segOn, greedyOn, MinMatch)]
  }

  /** The blocks after the `int(greedy_run_mode)` conversion: `-a`, `-e`, `-s`. */
  function GreedyBlocks(r: Resolved, segOn: bool, greedyOn: bool): seq<Candidate>
  {
    [Block(r, segOn, greedyOn, Greedy), Block(r, segOn, greedyOn, Mismatches), Block(r, segOn, greedyOn, MinScore)]
  }

  /** The last blocks: `-z`, `-v`. */
  function RunBlocks(r: Resolved, segOn: bool, greedyOn: bool): seq<Candidate>
  {
    [Block(r, segOn, greedyOn, Threads), Block(r, segOn, greedyOn, Verbose)]
  }

  /** The twelve blocks of `_process_kaiju_options`, in source order. */
  function Candidates(r: Resolved, segOn: bool, greedyOn: bool): seq<Candidate>
  {
    DbBlocks(r, segOn, greedyOn) + ReadBlocks(r, segOn, greedyOn) + FilterBlocks(r, segOn, greedyOn)
    + GreedyBlocks(r, segOn, greedyOn) + RunBlocks(r, segOn, greedyOn)
  }

  /** The blocks for `r`'s own `seg_filter` and `greedy_run_mode`. */
  function Blocks(r: Resolved): seq<Candidate>
  {
    Candidates(r, ToInt(Get(r.options, "seg_filter")) == Some(1), GreedyModeOn(r.options))
  }

  /** `_process_kaiju_options`, which raises when `int()` rejects `seg_filter` or `greedy_run_mode`. */
  function KaijuArgs(r: Resolved): Result<seq<Arg>, Error>
  {
    var seg := Get(r.options, "seg_filter");
    var greedy := Get(r.options, "greedy_run_mode");
    if ToInt(seg).None? then Failure(NotAnInteger("seg_filter", seg))
    else if ToInt(greedy).None? then Failure(NotAnInteger("greedy_run_mode", greedy))
    else Success(Select(Blocks(r)))
  }

  /** `_build_kaiju_command` for one sample, as structured arguments. */
  function KaijuInvocation(util: UtilConfig, options: Dict, sample: Sample, sizes: Sizes, verbose: bool)
    : Result<seq<Arg>, Error>
  {
    match ResolveDatabase(options)
    case Failure(e) => Failure(e)
    case Success(db) =>
      var r := Resolve(util, options, sample, db, verbose);
      match ValidateKaijuOptions(r, sizes)
      case Fail(e) => Failure(e)
      case Pass => KaijuArgs(r)
  }

  /** `_build_kaiju_command` for one sample: the argv list it returns. */
  function KaijuCommandLine(util: UtilConfig, options: Dict, sample: Sample, sizes: Sizes, verbose: bool)
    : (r: Result<seq<string>, Error>)
    ensures r.Failure? ==> !r.error.CommandFailed?
  {
    match KaijuInvocation(util, options, sample, sizes, verbose)
    case Failure(e) => Failure(e)
    case Success(args) => Success([KaijuBin] + Flatten(args))
  }

  // ---------------------------------------------------------------------
  // Lemmas about argument lists

  /** Dropping the last element of `a + b`, for a non-empty `b`, drops the last element of `b`. */
  lemma DropLast<T>(a: seq<T>, b: seq<T>)
    requires b != []
    ensures (a + b)[..|a + b| - 1] == a + b[..|b| - 1]
  {
  }

  lemma {:induction false} FlattenAppend(a: seq<Arg>, b: seq<Arg>)
    ensures Flatten(a + b) == Flatten(a) + Flatten(b)
    decreases |b|
  {
    if b == [] {
      assert a + b == a;
    } else {
      FlattenAppend(a, b[..|b| - 1]);
      DropLast(a, b);
    }
  }

  lemma FlattenOne(a: Arg)
    ensures Flatten([a]) == ArgTokens(a)
  {
    assert [a][..0] == [];
  }

  /** The words a candidate contributes: its argument's words when it is on, none otherwise. */
  function Words(c: Candidate): seq<string>
  {
    if c.on then ArgTokens(c.arg) else []
  }

  lemma {:induction false} SelectAppend(a: seq<Candidate>, b: seq<Candidate>)
    ensures Select(a + b) == Select(a) + Select(b)
    decreases |b|
  {
    if b == [] {
      assert a + b == a;
    } else {
      SelectAppend(a, b[..|b| - 1]);
      DropLast(a, b);
    }
  }

  lemma WordsOne(x: Candidate)
    ensures Flatten(Select([x])) == Words(x)
  {
    assert [x][..0] == [];
    assert Select([x]) == if x.on then [x.arg] else [];
    if x.on {
      FlattenOne(x.arg);
    }
  }

  /** Appending the words of two consecutive block groups is appending the words of the joined group. */
  lemma SelectConcat(w: seq<string>, a: seq<Candidate>, b: seq<Candidate>)
    ensures w + Flatten(Select(a)) + Flatten(Select(b)) == w + Flatten(Select(a + b))
  {
    SelectAppend(a, b);
    FlattenAppend(Select(a), Select(b));
  }

  lemma SelectPair(w: seq<string>, c: seq<Candidate>)
    requires |c| == 2
    ensures w + Flatten(Select(c)) == w + Words(c[0]) + Words(c[1])
  {
    assert c == [c[0]] + [c[1]];
    SelectConcat(w, [c[0]], [c[1]]);
    WordsOne(c[0]);
    WordsOne(c[1]);
  }

  lemma SelectTriple(w: seq<string>, c: seq<Candidate>)
    requires |c| == 3
    ensures w + Flatten(Select(c)) == w + Words(c[0]) + Words(c[1]) + Words(c[2])
  {
    assert c == c[..2] + [c[2]];
    SelectPair(w, c[..2]);
    SelectConcat(w, c[..2], [c[2]]);
    WordsOne(c[2]);
  }

  /** An argument is selected exactly when some candidate carrying it is on. */
  lemma {:induction false} SelectMembers(c: seq<Candidate>)
    ensures forall a :: a in Select(c) <==> exists i :: 0 <= i < |c| && c[i].on && c[i].arg == a
    decreases |c|
  {
    if c != [] {
      var n := |c| - 1;
      SelectMembers(c[..n]);
      forall a ensures a in Select(c) <==> exists i :: 0 <= i < |c| && c[i].on && c[i].arg == a {
        if a in Select(c[..n]) {
          var i :| 0 <= i < n && c[..n][i].on && c[..n][i].arg == a;
          assert c[i].on && c[i].arg == a;
        }
        if exists i :: 0 <= i < |c| && c[i].on && c[i].arg == a {
          var i :| 0 <= i < |c| && c[i].on && c[i].arg == a;
          if i < n {
            assert c[..n][i] == c[i];
          }
        }
      }
    }
  }

  predicate RanksIncreasing(c: seq<Candidate>)
  {
    forall i, j :: 0 <= i < j < |c| ==> Rank(c[i].arg.flag) < Rank(c[j].arg.flag)
  }

  /** Candidates in increasing rank select an ordered argument list. */
  lemma {:induction false} SelectOrdered(c: seq<Candidate>)
    requires RanksIncreasing(c)
    ensures Ordered(Select(c))
    decreases |c|
  {
    if c != [] {
      var n := |c| - 1;
      var prefix := Select(c[..n]);
      SelectOrdered(c[..n]);
      SelectMembers(c[..n]);
      if c[n].on {
        var s := prefix + [c[n].arg];
        forall i, j | 0 <= i < j < |s| ensures Rank(s[i].flag) < Rank(s[j].flag) {
          if j == |prefix| {
            assert s[i] in prefix;
            var k :| 0 <= k < n && c[..n][k].on && c[..n][k].arg == s[i];
            assert c[k] == c[..n][k];
          }
        }
      } else {
        assert Select(c) == prefix + [];
      }
    }
  }

  /** The rank of the flag of the `i`-th candidate is `i`. */
  predicate RankIsPosition(c: seq<Candidate>)
  {
    forall i :: 0 <= i < |c| ==> Rank(c[i].arg.flag) == i
  }

  /** Block `i` of the twelve is the block of the flag of rank `i`. */
  /** Index `i` of the twelve blocks falls in the group that holds it. */
  lemma CandidateAt(r: Resolved, segOn: bool, greedyOn: bool, i: int)
    requires 0 <= i < 12
    ensures var c := Candidates(r, segOn, greedyOn);
            |c| == 12 && c[i] == (if i < 2 then DbBlocks(r, segOn, greedyOn)[i]
                                  else if i < 5 then ReadBlocks(r, segOn, greedyOn)[i - 2]
                                  else if i < 7 then FilterBlocks(r, segOn, greedyOn)[i - 5]
                                  else if i < 10 then GreedyBlocks(r, segOn, greedyOn)[i - 7]
                                  else RunBlocks(r, segOn, greedyOn)[i - 10])
  {
  }

  lemma CandidatesTable(r: Resolved, segOn: bool, greedyOn: bool)
    ensures var c := Candidates(r, segOn, greedyOn);
            && |c| == 12 && RankIsPosition(c)
            && forall f :: c[Rank(f)] == Block(r, segOn, greedyOn, f)
  {
    var c := Candidates(r, segOn, greedyOn);
    forall i | 0 <= i < |c| ensures Rank(c[i].arg.flag) == i {
      CandidateAt(r, segOn, greedyOn, i);
    }
    forall f ensures c[Rank(f)] == Block(r, segOn, greedyOn, f) {
      CandidateAt(r, segOn, greedyOn, Rank(f));
    }
  }

  /** Flag `f` is emitted exactly when its block's condition holds, and then with its block's value. */
  lemma FlagEmitted(r: Resolved, segOn: bool, greedyOn: bool, f: Flag)
    ensures var args := Select(Candidates(r, segOn, greedyOn));
            && (HasFlag(args, f) <==> Emits(r, segOn, greedyOn, f))
            && (Emits(r, segOn, greedyOn, f) ==> ArgFor(r, f) in args)
  {
    var c := Candidates(r, segOn, greedyOn);
    CandidatesTable(r, segOn, greedyOn);
    SelectMembers(c);
    var k := Rank(f);
    assert c[k] == Block(r, segOn, greedyOn, f);
    if HasFlag(Select(c), f) {
      var a :| a in Select(c) && a.flag == f;
      var i :| 0 <= i < |c| && c[i].on && c[i].arg == a;
      assert Rank(c[i].arg.flag) == i;
    }
    if c[k].on {
      assert c[k].arg in Select(c);
    }
  }

  /** Every flag is emitted exactly when its block's condition holds. */
  lemma EmittedFlags(r: Resolved, segOn: bool, greedyOn: bool)
    ensures var args := Select(Candidates(r, segOn, greedyOn));
            forall f :: && (HasFlag(args, f) <==> Emits(r, segOn, greedyOn, f))
                        && (Emits(r, segOn, greedyOn, f) ==> ArgFor(r, f) in args)
  {
    forall f ensures var args := Select(Candidates(r, segOn, greedyOn));
                     && (HasFlag(args, f) <==> Emits(r, segOn, greedyOn, f))
                     && (Emits(r, segOn, greedyOn, f) ==> ArgFor(r, f) in args) {
      FlagEmitted(r, segOn, greedyOn, f);
    }
  }

  /** Whatever the options, the emitted flags keep the fixed order `-t -f -i -j -o -x -m -a -e -s -z -v`. */
  lemma EmittedOrdered(r: Resolved, segOn: bool, greedyOn: bool)
    ensures Ordered(Select(Candidates(r, segOn, greedyOn)))
  {
    CandidatesTable(r, segOn, greedyOn);
    SelectOrdered(Candidates(r, segOn, greedyOn));
  }

  /** The word at argument `i`'s offset is its flag, and a valued flag is immediately followed by its value. */
  lemma FlattenAt(args: seq<Arg>, i: int)
    requires 0 <= i < |args|
    ensures var p := |Flatten(args[..i])|;
            && p < |Flatten(args)| && Flatten(args)[p] == Token(args[i].flag)
            && (args[i].value.Some? ==> p + 1 < |Flatten(args)| && Flatten(args)[p + 1] == args[i].value.value)
  {
    assert args == args[..i] + [args[i]] + args[i + 1..];
    FlattenAppend(args[..i] + [args[i]], args[i + 1..]);
    FlattenAppend(args[..i], [args[i]]);
    assert [args[i]][..0] == [];
  }

  // ---------------------------------------------------------------------
  // The imperative builder

  /** The Python list `command_list` that the `_process_*` helpers append to in place. */
  class CommandLine {
    var args: seq<string>

    constructor (init: seq<string>)
      ensures args == init
    {
      args := init;
    }

    method Append(word: string)
      modifies this
      ensures args == old(args) + [word]
    {
      args := args + [word];
    }
  }

  /** `if c: command_list.append(flag)`, followed by the flag's value for a valued flag. */
  method AppendWhen(cmd: CommandLine, c: bool, a: Arg)
    modifies cmd
    ensures cmd.args == old(cmd.args) + Words(Candidate(c, a))
  {
    if c {
      cmd.Append(Token(a.flag));
      if a.value.Some? {
        cmd.Append(a.value.value);
      }
    }
  }

  /**
   * `_process_kaiju_options`: appends the flags of `KaijuArgs(r)` to `cmd`.
   * When an `int()` conversion raises, the words appended before it stay.
   */
  method ProcessKaijuOptions(cmd: CommandLine, r: Resolved) returns (err: Option<Error>)
    modifies cmd
    ensures KaijuArgs(r).Success? ==> err == None && cmd.args == old(cmd.args) + Flatten(KaijuArgs(r).value)
    ensures KaijuArgs(r).Failure? ==> err == Some(KaijuArgs(r).error)
    ensures var segOn := ToInt(Get(r.options, "seg_filter")) == Some(1);
            var greedyOn := GreedyModeOn(r.options);
            ToInt(Get(r.options, "seg_filter")).None? ==>
              cmd.args == old(cmd.args) + Flatten(Select(DbBlocks(r, segOn, greedyOn) + ReadBlocks(r, segOn, greedyOn)))
    ensures var segOn := ToInt(Get(r.options, "seg_filter")) == Some(1);
            var greedyOn := GreedyModeOn(r.options);
            ToInt(Get(r.options, "seg_filter")).Some? && ToInt(Get(r.options, "greedy_run_mode")).None? ==>
              cmd.args == old(cmd.args) + Flatten(Select(DbBlocks(r, segOn, greedyOn) + ReadBlocks(r, segOn, greedyOn)
                                                         + FilterBlocks(r, segOn, greedyOn)))
  {
    var o := r.options;
    ghost var start := cmd.args;
    ghost var segOn := ToInt(Get(o, "seg_filter")) == Some(1);
    ghost var greedyOn := GreedyModeOn(o);
    ghost var d := DbBlocks(r, segOn, greedyOn);
    ghost var rd := ReadBlocks(r, segOn, greedyOn);
    ghost var f := FilterBlocks(r, segOn, greedyOn);
    ghost var g := GreedyBlocks(r, segOn, greedyOn);
    ghost var n := RunBlocks(r, segOn, greedyOn);

    ProcessDbOptions(cmd, r, segOn, greedyOn);
    ProcessReadOptions(cmd, r, segOn, greedyOn);
    SelectConcat(start, d, rd);

    var seg := ToInt(Get(o, "seg_filter"));
    if seg.None? {
      return Some(NotAnInteger("seg_filter", Get(o, "seg_filter")));
    }
    ProcessFilterOptions(cmd, r, seg.value, greedyOn);
    SelectConcat(start, d + rd, f);

    var greedy := ToInt(Get(o, "greedy_run_mode"));
    if greedy.None? {
      return Some(NotAnInteger("greedy_run_mode", Get(o, "greedy_run_mode")));
    }
    ProcessGreedyOptions(cmd, r, segOn, greedy.value);
    SelectConcat(start, d + rd + f, g);
    ProcessRunOptions(cmd, r, segOn, greedyOn);
    SelectConcat(start, d + rd + f + g, n);
    return None;
  }

  /** The `-t` and `-f` blocks of `_process_kaiju_options`. */
  method ProcessDbOptions(cmd: CommandLine, r: Resolved, ghost segOn: bool, ghost greedyOn: bool)
    modifies cmd
    ensures cmd.args == old(cmd.args) + Flatten(Select(DbBlocks(r, segOn, greedyOn)))
  {
    ghost var start := cmd.args;
    AppendWhen(cmd, r.db.nodes != "", Arg(Nodes, Some(r.db.nodes)));
    AppendWhen(cmd, r.db.index != "", Arg(Index, Some(r.db.index)));
    ghost var c := DbBlocks(r, segOn, greedyOn);
    assert c[0] == Candidate(r.db.nodes != "", Arg(Nodes, Some(r.db.nodes)));
    assert c[1] == Candidate(r.db.index != "", Arg(Index, Some(r.db.index)));
    SelectPair(start, c);
  }

  /** The `-i`, `-j` and `-o` blocks of `_process_kaiju_options`. */
  method ProcessReadOptions(cmd: CommandLine, r: Resolved, ghost segOn: bool, ghost greedyOn: bool)
    modifies cmd
    ensures cmd.args == old(cmd.args) + Flatten(Select(ReadBlocks(r, segOn, greedyOn)))
  {
    ghost var start := cmd.args;
    var o := r.options;
    AppendWhen(cmd, r.sample.fwdFile != "", Arg(Forward, Some(r.sample.fwdFile)));
    AppendWhen(cmd, r.sample.readType == PairedEnd, Arg(Reverse, Some(RevArg(r.sample))));
    var outFile := r.sample.name + ".kaiju";
    AppendWhen(cmd, Truthy(Get(o, "out_folder")),
               Arg(Output, Some(PathJoin(ToStr(Get(o, "out_folder")), outFile))));
    ghost var c := ReadBlocks(r, segOn, greedyOn);
    assert c[0] == Candidate(r.sample.fwdFile != "", Arg(Forward, Some(r.sample.fwdFile)));
    assert c[1] == Candidate(r.sample.readType == PairedEnd, Arg(Reverse, Some(RevArg(r.sample))));
    assert c[2] == Candidate(Truthy(Get(o, "out_folder")),
                             Arg(Output, Some(PathJoin(ToStr(Get(o, "out_folder")), outFile))));
    SelectTriple(start, c);
  }

  /** The `-x` and `-m` blocks, given `int(seg_filter)`. */
  method ProcessFilterOptions(cmd: CommandLine, r: Resolved, seg: int, ghost greedyOn: bool)
    modifies cmd
    ensures cmd.args == old(cmd.args) + Flatten(Select(FilterBlocks(r, seg == 1, greedyOn)))
  {
    ghost var start := cmd.args;
    AppendWhen(cmd, seg == 1, Arg(SegFilter, None));
    var mml := Get(r.options, "min_match_length");
    AppendWhen(cmd, Truthy(mml), Arg(MinMatch, Some(ToStr(mml))));
    ghost var c := FilterBlocks(r, seg == 1, greedyOn);
    assert c[0] == Candidate(seg == 1, Arg(SegFilter, None));
    assert c[1] == Candidate(Truthy(mml), Arg(MinMatch, Some(ToStr(mml))));
    SelectPair(start, c);
  }

  /** The `-a greedy` block and the `-e` and `-s` blocks nested in it, given `int(greedy_run_mode)`. */
  method ProcessGreedyOptions(cmd: CommandLine, r: Resolved, ghost segOn: bool, greedy: int)
    modifies cmd
    ensures cmd.args == old(cmd.args) + Flatten(Select(GreedyBlocks(r, segOn, greedy == 1)))
  {
    ghost var start := cmd.args;
    var o := r.options;
    var greedyOn := greedy == 1;
    AppendWhen(cmd, greedyOn, Arg(Greedy, Some("greedy")));
    var gam := Get(o, "greedy_allowed_mismatches");
    AppendWhen(cmd, greedyOn && Truthy(gam), Arg(Mismatches, Some(ToStr(gam))));
    var gms := Get(o, "greedy_min_match_score");
    AppendWhen(cmd, greedyOn && Truthy(gms), Arg(MinScore, Some(ToStr(gms))));
    ghost var c := GreedyBlocks(r, segOn, greedyOn);
    assert c[0] == Candidate(greedyOn, Arg(Greedy, Some("greedy")));
    assert c[1] == Candidate(greedyOn && Truthy(gam), Arg(Mismatches, Some(ToStr(gam))));
    assert c[2] == Candidate(greedyOn && Truthy(gms), Arg(MinScore, Some(ToStr(gms))));
    SelectTriple(start, c);
  }

  /** The `-z` and `-v` blocks of `_process_kaiju_options`. */
  method ProcessRunOptions(cmd: CommandLine, r: Resolved, ghost segOn: bool, ghost greedyOn: bool)
    modifies cmd
    ensures cmd.args == old(cmd.args) + Flatten(Select(RunBlocks(r, segOn, greedyOn)))
  {
    ghost var start := cmd.args;
    AppendWhen(cmd, Truthy(r.threads), Arg(Threads, Some(ToStr(r.threads))));
    AppendWhen(cmd, r.verbose, Arg(Verbose, None));
    ghost var c := RunBlocks(r, segOn, greedyOn);
    assert c[0] == Candidate(Truthy(r.threads), Arg(Threads, Some(ToStr(r.threads))));
    assert c[1] == Candidate(r.verbose, Arg(Verbose, None));
    SelectPair(start, c);
  }

  /** `_build_kaiju_command`: resolve the database, validate, then build the argv list. */
  method BuildKaijuCommand(util: UtilConfig, options: Dict, sample: Sample, sizes: Sizes, verbose: bool)
    returns (r: Result<seq<string>, Error>)
    ensures r == KaijuCommandLine(util, options, sample, sizes, verbose)
  {
    var db := ResolveDatabase(options);
    if db.Failure? {
      return Failure(db.error);
    }
    var resolved := Resolve(util, options, sample, db.value, verbose);
    var check := ValidateKaijuOptions(resolved, sizes);
    if check.Fail? {
      return Failure(check.error);
    }
    var cmd := new CommandLine([KaijuBin]);
    var err := ProcessKaijuOptions(cmd, resolved);
    if err.Some? {
      return Failure(err.value);
    }
    return Success(cmd.args);
  }

  // ---------------------------------------------------------------------
  // Properties of a built command

  /** A successful build's arguments, in terms of the validated inputs. */
  lemma InvocationArgs(util: UtilConfig, options: Dict, sample: Sample, sizes: Sizes, verbose: bool)
    requires KaijuInvocation(util, options, sample, sizes, verbose).Success?
    ensures ResolveDatabase(options).Success? && ToInt(Get(options, "seg_filter")).Some?
    ensures var r := Resolve(util, options, sample, ResolveDatabase(options).value, verbose);
            && ValidateKaijuOptions(r, sizes).Pass?
            && KaijuInvocation(util, options, sample, sizes, verbose).value
               == Select(Candidates(r, ToInt(Get(options, "seg_filter")) == Some(1), GreedyModeOn(options)))
  {
  }

  /**
   * A successful build is the classifier binary followed by the flags in the
   * fixed order, each valued flag immediately followed by its value.
   */
  lemma KaijuArgvShape(util: UtilConfig, options: Dict, sample: Sample, sizes: Sizes, verbose: bool)
    requires KaijuInvocation(util, options, sample, sizes, verbose).Success?
    ensures KaijuCommandLine(util, options, sample, sizes, verbose).Success?
    ensures var args := KaijuInvocation(util, options, sample, sizes, verbose).value;
            var argv := KaijuCommandLine(util, options, sample, sizes, verbose).value;
            && argv[0] == KaijuBin
            && argv[1..] == Flatten(args)
            && Ordered(args)
            && forall i :: 0 <= i < |args| ==>
                 var p := 1 + |Flatten(args[..i])|;
                 && p < |argv| && argv[p] == Token(args[i].flag)
                 && (args[i].value.Some? ==> p + 1 < |argv| && argv[p + 1] == args[i].value.value)
  {
    InvocationArgs(util, options, sample, sizes, verbose);
    var r := Resolve(util, options, sample, ResolveDatabase(options).value, verbose);
    EmittedOrdered(r, ToInt(Get(options, "seg_filter")) == Some(1), GreedyModeOn(options));
    var args := KaijuInvocation(util, options, sample, sizes, verbose).value;
    var argv := KaijuCommandLine(util, options, sample, sizes, verbose).value;
    assert argv[1..] == Flatten(args);
    forall i | 0 <= i < |args|
      ensures var p := 1 + |Flatten(args[..i])|;
              && p < |argv| && argv[p] == Token(args[i].flag)
              && (args[i].value.Some? ==> p + 1 < |argv| && argv[p + 1] == args[i].value.value)
    {
      FlattenAt(args, i);
    }
  }

  /** Nothing is built unless the options validate and the reads and database files are non-empty. */
  lemma KaijuBuildNeedsFiles(util: UtilConfig, options: Dict, sample: Sample, sizes: Sizes, verbose: bool)
    requires KaijuInvocation(util, options, sample, sizes, verbose).Success?
    ensures ResolveDatabase(options).Success?
    ensures var db := ResolveDatabase(options).value;
            && OptionsValid(options)
            && NonEmptyFile(sizes, sample.fwdFile)
            && (sample.readType == PairedEnd ==> sample.revFile.Some? && NonEmptyFile(sizes, sample.revFile.value))
            && NonEmptyFile(sizes, db.index) && NonEmptyFile(sizes, db.nodes)
  {
  }

  /**
   * The sample-derived flags: `-t` and `-f` carry the validated database files,
   * `-i` the forward file, `-j` appears exactly for paired-end samples, and
   * `-o` is the output folder joined with `<name>.kaiju`.
   */
  lemma KaijuSampleFlags(util: UtilConfig, options: Dict, sample: Sample, sizes: Sizes, verbose: bool)
    requires KaijuInvocation(util, options, sample, sizes, verbose).Success?
    ensures ResolveDatabase(options).Success?
    ensures var db := ResolveDatabase(options).value;
            && Arg(Nodes, Some(db.nodes)) in KaijuInvocation(util, options, sample, sizes, verbose).value
            && NonEmptyFile(sizes, db.nodes)
            && Arg(Index, Some(db.index)) in KaijuInvocation(util, options, sample, sizes, verbose).value
            && NonEmptyFile(sizes, db.index)
    ensures var args := KaijuInvocation(util, options, sample, sizes, verbose).value;
            && (HasFlag(args, Forward) <==> sample.fwdFile != "")
            && (sample.fwdFile != "" ==> Arg(Forward, Some(sample.fwdFile)) in args)
    ensures var args := KaijuInvocation(util, options, sample, sizes, verbose).value;
            && (HasFlag(args, Reverse) <==> sample.readType == PairedEnd)
            && (sample.readType == PairedEnd ==>
                  sample.revFile.Some? && Arg(Reverse, Some(sample.revFile.value)) in args)
    ensures var args := KaijuInvocation(util, options, sample, sizes, verbose).value;
            && (HasFlag(args, Output) <==> Truthy(Get(options, "out_folder")))
            && (Truthy(Get(options, "out_folder")) ==>
                  Arg(Output, Some(PathJoin(ToStr(Get(options, "out_folder")), sample.name + ".kaiju"))) in args)
  {
    InvocationArgs(util, options, sample, sizes, verbose);
    var db := ResolveDatabase(options).value;
    var r := Resolve(util, options, sample, db, verbose);
    var segOn := ToInt(Get(options, "seg_filter")) == Some(1);
    var g := GreedyModeOn(options);
    FlagEmitted(r, segOn, g, Nodes);
    FlagEmitted(r, segOn, g, Index);
    FlagEmitted(r, segOn, g, Forward);
    FlagEmitted(r, segOn, g, Reverse);
    FlagEmitted(r, segOn, g, Output);
  }

  /** `-x` appears iff `int(seg_filter) == 1`; `-m` iff min_match_length is truthy, carrying `str()` of it. */
  lemma KaijuFilterFlags(util: UtilConfig, options: Dict, sample: Sample, sizes: Sizes, verbose: bool)
    requires KaijuInvocation(util, options, sample, sizes, verbose).Success?
    ensures var args := KaijuInvocation(util, options, sample, sizes, verbose).value;
            var mml := Get(options, "min_match_length");
            && (HasFlag(args, SegFilter) <==> ToInt(Get(options, "seg_filter")) == Some(1))
            && (HasFlag(args, MinMatch) <==> Truthy(mml))
            && (Truthy(mml) ==> Arg(MinMatch, Some(ToStr(mml))) in args)
  {
    InvocationArgs(util, options, sample, sizes, verbose);
    var r := Resolve(util, options, sample, ResolveDatabase(options).value, verbose);
    var segOn := ToInt(Get(options, "seg_filter")) == Some(1);
    var g := GreedyModeOn(options);
    FlagEmitted(r, segOn, g, SegFilter);
    FlagEmitted(r, segOn, g, MinMatch);
  }

  /**
   * `-a greedy` appears iff greedy mode is on, and `-e`/`-s` only in greedy
   * mode and only for truthy values, carrying `str()` of them.
   */
  lemma KaijuGreedyFlags(util: UtilConfig, options: Dict, sample: Sample, sizes: Sizes, verbose: bool)
    requires KaijuInvocation(util, options, sample, sizes, verbose).Success?
    ensures var args := KaijuInvocation(util, options, sample, sizes, verbose).value;
            var gam := Get(options, "greedy_allowed_mismatches");
            var gms := Get(options, "greedy_min_match_score");
            && (HasFlag(args, Greedy) <==> GreedyModeOn(options))
            && (GreedyModeOn(options) ==> Arg(Greedy, Some("greedy")) in args)
            && (HasFlag(args, Mismatches) <==> GreedyModeOn(options) && Truthy(gam))
            && (GreedyModeOn(options) && Truthy(gam) ==> Arg(Mismatches, Some(ToStr(gam))) in args)
            && (HasFlag(args, MinScore) <==> GreedyModeOn(options) && Truthy(gms))
            && (GreedyModeOn(options) && Truthy(gms) ==> Arg(MinScore, Some(ToStr(gms))) in args)
  {
    InvocationArgs(util, options, sample, sizes, verbose);
    var r := Resolve(util, options, sample, ResolveDatabase(options).value, verbose);
    var segOn := ToInt(Get(options, "seg_filter")) == Some(1);
    var g := GreedyModeOn(options);
    FlagEmitted(r, segOn, g, Greedy);
    FlagEmitted(r, segOn, g, Mismatches);
    FlagEmitted(r, segOn, g, MinScore);
  }

  /**
   * `-z` carries the app's thread count when it exceeds 1, and otherwise the
   * caller's `threads` when truthy; `-v` appears iff verbose.
   */
  lemma KaijuRunFlags(util: UtilConfig, options: Dict, sample: Sample, sizes: Sizes, verbose: bool)
    requires KaijuInvocation(util, options, sample, sizes, verbose).Success?
    ensures var args := KaijuInvocation(util, options, sample, sizes, verbose).value;
            && (util.threads > 1 ==> Arg(Threads, Some(DecimalString(util.threads))) in args)
            && (util.threads <= 1 ==> (HasFlag(args, Threads) <==> Truthy(Get(options, "threads"))))
            && (util.threads <= 1 && Truthy(Get(options, "threads")) ==>
                  Arg(Threads, Some(ToStr(Get(options, "threads")))) in args)
            && (HasFlag(args, Verbose) <==> verbose)
  {
    InvocationArgs(util, options, sample, sizes, verbose);
    var r := Resolve(util, options, sample, ResolveDatabase(options).value, verbose);
    var segOn := ToInt(Get(options, "seg_filter")) == Some(1);
    var g := GreedyModeOn(options);
    FlagEmitted(r, segOn, g, Threads);
    FlagEmitted(r, segOn, g, Verbose);
  }

  /** An unknown `db_type` is rejected before any file is checked or any argument is built. */
  lemma BadDbTypeRejectedFirst(util: UtilConfig, options: Dict, sample: Sample, sizes: Sizes, verbose: bool)
    requires "db_type" in options && options["db_type"].Str? && !KnownDbType(options["db_type"].s)
    ensures KaijuCommandLine(util, options, sample, sizes, verbose) == Failure(BadDbType(options["db_type"].s))
  {
  }

  /** Once the options validate, the only `int()` that can still raise is the one on `seg_filter`. */
  lemma ValidatedGreedyModeConverts(r: Resolved, sizes: Sizes)
    requires ValidateKaijuOptions(r, sizes).Pass?
    ensures KaijuArgs(r).Failure? <==> ToInt(Get(r.options, "seg_filter")).None?
  {
  }

  // ---------------------------------------------------------------------
  // The source as written, where its keys disagree

  /**
   * `_process_kaiju_options` as written: the greedy block converts
   * `options.get('greedy_mode')`, a key that validation never checks and no
   * caller sets, instead of `greedy_run_mode`.
   */
  function KaijuArgsAsWritten(r: Resolved): Result<seq<Arg>, Error>
  {
    var seg := Get(r.options, "seg_filter");
    var greedy := Get(r.options, "greedy_mode");
    if ToInt(seg).None? then Failure(NotAnInteger("seg_filter", seg))
    else if ToInt(greedy).None? then Failure(NotAnInteger("greedy_mode", greedy))
    else Success(Select(Candidates(r, ToInt(seg) == Some(1), ToInt(greedy) == Some(1))))
  }

  /**
   * Without a `greedy_mode` key, `int(None)` raises TypeError as soon as
   * `seg_filter` converts, however the options validated.
   */
  lemma GreedyModeKeyAbsentFails(r: Resolved, sizes: Sizes)
    requires ValidateKaijuOptions(r, sizes).Pass? && ToInt(Get(r.options, "seg_filter")).Some?
    requires "greedy_mode" !in r.options
    ensures KaijuArgsAsWritten(r) == Failure(NotAnInteger("greedy_mode", Null))
    ensures KaijuArgs(r).Success?
  {
  }

  /**
   * The database check of `_validate_kaiju_options` as written: the index is
   * read from the derived `KAIJU_DB_PATH`, but the nodes file from
   * `options['KAIJU_DB_NODES']`, which the builder never writes (it stores
   * the nodes path under `KAIJU_NODES`).
   */
  function CheckDbFilesAsWritten(db: DbPaths, o: Dict, sizes: Sizes): Outcome<Error>
  {
    match CheckFileSize(sizes, db.index, "KAIJU_DB_PATH")
    case Fail(e) => Fail(e)
    case Pass =>
      if "KAIJU_DB_NODES" !in o then Fail(MissingKey("KAIJU_DB_NODES"))
      else match o["KAIJU_DB_NODES"]
        case Str(p) => CheckFileSize(sizes, p, "KAIJU_DB_NODES")
        case _ => Fail(NotAString("KAIJU_DB_NODES"))
  }

  /** `_validate_kaiju_options` as written, with the nodes file looked up under the key the builder never sets. */
  function ValidateKaijuOptionsAsWritten(r: Resolved, sizes: Sizes): Outcome<Error>
  {
    match CheckRequiredOptions(r.options)
    case Fail(e) => Fail(e)
    case Pass =>
      match CheckGreedyOptions(r.options)
      case Fail(e) => Fail(e)
      case Pass =>
        match CheckInputFiles(r.sample, sizes)
        case Fail(e) => Fail(e)
        case Pass => CheckDbFilesAsWritten(r.db, r.options, sizes)
  }

  /**
   * Every sample that the intended validation accepts is rejected with
   * KeyError('KAIJU_DB_NODES') unless the caller's dict already holds that key.
   */
  lemma NodesKeyNeverWritten(r: Resolved, sizes: Sizes)
    requires ValidateKaijuOptions(r, sizes).Pass?
    requires "KAIJU_DB_NODES" !in r.options
    ensures ValidateKaijuOptionsAsWritten(r, sizes) == Fail(MissingKey("KAIJU_DB_NODES"))
  {
  }
}
