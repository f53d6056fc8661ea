/**
 * KaijuUtil's `run_kaiju_batch`: for each sample in list order, build the
 * classifier command, run it, and stop at the first failure.
 *
 * Running a process is an exit-code oracle (`exec`), and what the loop does
 * around it (the "Running" log line, opening and closing the per-sample log
 * file, the "Executed" log line) is recorded as a trace of events.
 */
module KaijuBatch {
  import opened Wrappers
  import opened PyValues
  import opened KaijuErrors
  import opened KaijuCommand

  /** What one iteration of the batch loop does, in order. */
  datatype Event =
      /** `log('Running: ' + ' '.join(command))` */
    | Running(command: seq<string>)
      /** The per-sample output file is opened. */
    | OpenLog(path: string)
      /** The classifier runs; its output goes to the log file when `toLog`. */
    | Exec(command: seq<string>, toLog: bool)
      /** The per-sample output file is closed. */
    | CloseLog(path: string)
      /** `log('Executed command: ...')`, written only for exit code 0. */
    | Executed(command: seq<string>, exitCode: int)

  /**
   * The fixed inputs of one batch: how a sample's command is built, the
   * scratch directory, the process oracle and `dropOutput`. The batch logic
   * holds for any builder; `KaijuEnv` plugs in `_build_kaiju_command`.
   */
  datatype BatchEnv = BatchEnv(build: Sample -> Result<seq<string>, Error>, scratch: string,
                               exec: seq<string> -> int, dropOutput: bool)

  /** The batch environment of `run_kaiju_batch`, whose commands use the builder's default `verbose=True`. */
  function KaijuEnv(util: UtilConfig, options: Dict, sizes: Sizes, exec: seq<string> -> int, dropOutput: bool): BatchEnv
  {
    BatchEnv(s => KaijuCommandLine(util, options, s, sizes, true), util.scratch, exec, dropOutput)
  }

  /** The events of a run so far and how it ended. */
  datatype Run = Run(events: seq<Event>, outcome: Outcome<Error>)

  /** The command for sample `s`. */
  function CommandOf(env: BatchEnv, s: Sample): Result<seq<string>, Error>
  {
    env.build(s)
  }

  /** `os.path.join(scratch, name + '.out')`. */
  function LogPath(env: BatchEnv, s: Sample): string
  {
    PathJoin(env.scratch, s.name + ".out")
  }

  /**
   * The events of running `cmd`: the "Running" line, the log file opened and
   * closed around the process when `dropOutput`, and the "Executed" line for
   * exit code 0.
   */
  function RunEvents(cmd: seq<string>, log: string, dropOutput: bool, code: int): seq<Event>
  {
    if dropOutput then
      if code == 0 then [Running(cmd), OpenLog(log), Exec(cmd, true), CloseLog(log), Executed(cmd, code)]
      else [Running(cmd), OpenLog(log), Exec(cmd, true), CloseLog(log)]
    else
      if code == 0 then [Running(cmd), Exec(cmd, false), Executed(cmd, code)]
      else [Running(cmd), Exec(cmd, false)]
  }

  /** One iteration of the loop for sample `s`, whose command build gave `built`. */
  function StepOf(env: BatchEnv, s: Sample, built: Result<seq<string>, Error>): Run
  {
    match built
    case Failure(e) => Run([], Fail(e))
    case Success(cmd) =>
      var code := env.exec(cmd);
      Run(RunEvents(cmd, LogPath(env, s), env.dropOutput, code),
          if code == 0 then Pass else Fail(CommandFailed(cmd, code)))
  }

  /** One iteration of the loop for sample `s`. */
  function SampleStep(env: BatchEnv, s: Sample): Run
  {
    StepOf(env, s, CommandOf(env, s))
  }

  /** The batch over `samples`: the steps in list order, up to and including the first that fails. */
  function Batch(env: BatchEnv, samples: seq<Sample>): Run
    decreases |samples|
  {
    if samples == [] then Run([], Pass)
    else
      var prev := Batch(env, samples[..|samples| - 1]);
      if prev.outcome.Fail? then prev
      else
        var step := SampleStep(env, samples[|samples| - 1]);
        Run(prev.events + step.events, step.outcome)
  }

  /** Sample `s` builds and its command exits with 0. */
  predicate SamplePasses(env: BatchEnv, s: Sample)
  {
    CommandOf(env, s).Success? && env.exec(CommandOf(env, s).value) == 0
  }

  predicate AllPass(env: BatchEnv, samples: seq<Sample>)
  {
    forall i :: 0 <= i < |samples| ==> SamplePasses(env, samples[i])
  }

  /** The commands of the `Exec` events, in order: the processes that were started. */
  function Execs(events: seq<Event>): seq<seq<string>>
    decreases |events|
  {
    if events == [] then []
    else Execs(events[..|events| - 1])
         + (if events[|events| - 1].Exec? then [events[|events| - 1].command] else [])
  }

  /** The commands of samples that all build. */
  function Commands(env: BatchEnv, samples: seq<Sample>): seq<seq<string>>
    requires forall i :: 0 <= i < |samples| ==> CommandOf(env, samples[i]).Success?
  {
    seq(|samples|, i requires 0 <= i < |samples| => CommandOf(env, samples[i]).value)
  }

  // ---------------------------------------------------------------------
  // The loop

  /** `run_kaiju_batch`. */
  method RunKaijuBatch(util: UtilConfig, options: Dict, sizes: Sizes, exec: seq<string> -> int,
                       dropOutput: bool, samples: seq<Sample>)
    returns (events: seq<Event>, outcome: Outcome<Error>)
    ensures Run(events, outcome) == Batch(KaijuEnv(util, options, sizes, exec, dropOutput), samples)
  {
    ghost var env := KaijuEnv(util, options, sizes, exec, dropOutput);
    events := [];
    var i := 0;
    assert samples[..0] == [];
    while i < |samples|
      invariant 0 <= i <= |samples|
      invariant Batch(env, samples[..i]) == Run(events, Pass)
    {
      var s := samples[i];
      var command := BuildKaijuCommand(util, options, s, sizes, true);
      assert CommandOf(env, s) == command;
      BatchSnoc(env, samples, i);
      if command.Failure? {
        outcome := Fail(command.error);
        BatchStopsAfterFailure(env, samples, i + 1);
        return;
      }
      var cmd := command.value;
      ghost var before := events;
      events := events + [Running(cmd)];
      var log := PathJoin(util.scratch, s.name + ".out");
      if dropOutput {
        events := events + [OpenLog(log)];
      }
      var exitCode := exec(cmd);
      events := events + [Exec(cmd, dropOutput)];
      if dropOutput {
        events := events + [CloseLog(log)];
      }
      TraceSteps(before, cmd, log, dropOutput, exitCode);
      assert env.scratch == util.scratch && env.exec == exec && env.dropOutput == dropOutput;
      assert SampleStep(env, s) == StepOf(env, s, command);
      assert SampleStep(env, s).events == RunEvents(cmd, log, dropOutput, exitCode);
      if exitCode == 0 {
        events := events + [Executed(cmd, exitCode)];
      } else {
        outcome := Fail(CommandFailed(cmd, exitCode));
        BatchStopsAfterFailure(env, samples, i + 1);
        return;
      }
      i := i + 1;
    }
    assert samples[..i] == samples;
    outcome := Pass;
  }

  /**
   * `run_kaiju_batch` as written: its first statement is a dictionary display
   * that evaluates `expanded_input`, a name the function cannot see, so every
   * call raises NameError before the first sample is built. `RunKaijuBatch`
   * models the function without that statement.
   */
  function BatchAsWritten(env: BatchEnv, samples: seq<Sample>): Run
  {
    Run([], Fail(NameError("expanded_input")))
  }

  /**
   * A batch whose samples all build and exit with 0 starts each of their
   * commands without the leading statement, and starts none with it.
   */
  lemma AsWrittenStartsNothing(env: BatchEnv, samples: seq<Sample>)
    requires samples != [] && AllPass(env, samples)
    ensures BatchAsWritten(env, samples).outcome == Fail(NameError("expanded_input"))
    ensures Execs(BatchAsWritten(env, samples).events) == []
    ensures Batch(env, samples).outcome == Pass
    ensures |Execs(Batch(env, samples).events)| == |samples|
  {
    BatchAllPass(env, samples);
  }

  // ---------------------------------------------------------------------
  // Properties

  /** One more loop iteration: a passing prefix extended by the next sample's step. */
  lemma BatchSnoc(env: BatchEnv, samples: seq<Sample>, i: int)
    requires 0 <= i < |samples| && Batch(env, samples[..i]).outcome.Pass?
    ensures Batch(env, samples[..i + 1])
            == Run(Batch(env, samples[..i]).events + SampleStep(env, samples[i]).events,
                   SampleStep(env, samples[i]).outcome)
  {
    assert samples[..i + 1][..i] == samples[..i];
  }

  /** The appends of one loop iteration, in the order the loop performs them, give `RunEvents`. */
  lemma TraceSteps(before: seq<Event>, cmd: seq<string>, log: string, drop: bool, code: int)
    ensures var e1 := before + [Running(cmd)];
            var e2 := if drop then e1 + [OpenLog(log)] else e1;
            var e3 := e2 + [Exec(cmd, drop)];
            var e4 := if drop then e3 + [CloseLog(log)] else e3;
            && (code == 0 ==> e4 + [Executed(cmd, code)] == before + RunEvents(cmd, log, drop, code))
            && (code != 0 ==> e4 == before + RunEvents(cmd, log, drop, code))
  {
  }

  /** Once a prefix fails, the rest of the list is never looked at. */
  lemma {:induction false} BatchStopsAfterFailure(env: BatchEnv, samples: seq<Sample>, k: int)
    requires 0 <= k <= |samples| && Batch(env, samples[..k]).outcome.Fail?
    ensures Batch(env, samples) == Batch(env, samples[..k])
    decreases |samples| - k
  {
    if k < |samples| {
      var n := |samples| - 1;
      assert samples[..n][..k] == samples[..k];
      BatchStopsAfterFailure(env, samples[..n], k);
    } else {
      assert samples[..k] == samples;
    }
  }

  lemma {:induction false} ExecsAppend(a: seq<Event>, b: seq<Event>)
    ensures Execs(a + b) == Execs(a) + Execs(b)
    decreases |b|
  {
    if b == [] {
      assert a + b == a;
    } else {
      ExecsAppend(a, b[..|b| - 1]);
      assert (a + b)[..|a + b| - 1] == a + b[..|b| - 1];
    }
  }

  lemma ExecsOne(e: Event)
    ensures Execs([e]) == if e.Exec? then [e.command] else []
  {
    assert [e][..0] == [];
  }

  /** Running a command starts exactly that command, once. */
  lemma RunEventsExecs(cmd: seq<string>, log: string, drop: bool, code: int)
    ensures Execs(RunEvents(cmd, log, drop, code)) == [cmd]
  {
    var pre: seq<Event> := if drop then [Running(cmd), OpenLog(log)] else [Running(cmd)];
    var post: seq<Event> := (if drop then [CloseLog(log)] else []) + (if code == 0 then [Executed(cmd, code)] else []);
    assert RunEvents(cmd, log, drop, code) == pre + [Exec(cmd, drop)] + post;
    ExecsAppend(pre + [Exec(cmd, drop)], post);
    ExecsAppend(pre, [Exec(cmd, drop)]);
    ExecsOne(Exec(cmd, drop));
    ExecsOne(Running(cmd));
    if drop {
      assert pre == [Running(cmd)] + [OpenLog(log)];
      ExecsAppend([Running(cmd)], [OpenLog(log)]);
      ExecsOne(OpenLog(log));
    }
    var c: seq<Event> := if drop then [CloseLog(log)] else [];
    var x: seq<Event> := if code == 0 then [Executed(cmd, code)] else [];
    ExecsAppend(c, x);
    if drop {
      ExecsOne(CloseLog(log));
    }
    if code == 0 {
      ExecsOne(Executed(cmd, code));
    }
  }

  /** A built sample starts exactly its own command; a sample that fails to build starts nothing. */
  lemma StepExecs(env: BatchEnv, s: Sample, built: Result<seq<string>, Error>)
    ensures Execs(StepOf(env, s, built).events) == (if built.Success? then [built.value] else [])
  {
    if built.Success? {
      RunEventsExecs(built.value, LogPath(env, s), env.dropOutput, env.exec(built.value));
    }
  }

  /** The batch succeeds iff every sample builds and its command exits with 0. */
  lemma {:induction false} BatchPassIff(env: BatchEnv, samples: seq<Sample>)
    ensures Batch(env, samples).outcome.Pass? <==> AllPass(env, samples)
    decreases |samples|
  {
    if samples != [] {
      var n := |samples| - 1;
      var prefix := samples[..n];
      BatchPassIff(env, prefix);
      assert forall i :: 0 <= i < n ==> prefix[i] == samples[i];
      if Batch(env, samples).outcome.Pass? {
        assert Batch(env, prefix).outcome.Pass?;
        forall i | 0 <= i < |samples| ensures SamplePasses(env, samples[i]) {
          if i < n {
            assert SamplePasses(env, prefix[i]);
          }
        }
      }
    }
  }

  /** When every sample passes, every sample's command was started exactly once, in list order. */
  lemma {:induction false} BatchAllPass(env: BatchEnv, samples: seq<Sample>)
    requires AllPass(env, samples)
    ensures Batch(env, samples).outcome == Pass
    ensures Execs(Batch(env, samples).events) == Commands(env, samples)
    decreases |samples|
  {
    BatchPassIff(env, samples);
    if samples != [] {
      var n := |samples| - 1;
      var prefix := samples[..n];
      assert forall i :: 0 <= i < n ==> prefix[i] == samples[i];
      BatchAllPass(env, prefix);
      StepExecs(env, samples[n], CommandOf(env, samples[n]));
      ExecsAppend(Batch(env, prefix).events, SampleStep(env, samples[n]).events);
      CommandsSnoc(env, samples);
    }
  }

  lemma CommandsSnoc(env: BatchEnv, samples: seq<Sample>)
    requires samples != [] && forall i :: 0 <= i < |samples| ==> CommandOf(env, samples[i]).Success?
    ensures var n := |samples| - 1;
            Commands(env, samples) == Commands(env, samples[..n]) + [CommandOf(env, samples[n]).value]
  {
  }

  /**
   * Fail fast: when sample `k` is the first that does not pass, the batch is
   * the passing prefix followed by sample `k`'s step, its outcome is that
   * step's failure, and no later sample is built or run.
   */
  lemma BatchFailsAt(env: BatchEnv, samples: seq<Sample>, k: int)
    requires 0 <= k < |samples| && AllPass(env, samples[..k]) && !SamplePasses(env, samples[k])
    ensures Batch(env, samples).events == Batch(env, samples[..k]).events + SampleStep(env, samples[k]).events
    ensures Batch(env, samples).outcome == SampleStep(env, samples[k]).outcome
    ensures Batch(env, samples).outcome.Fail?
    ensures Execs(Batch(env, samples).events)
            == Commands(env, samples[..k])
               + (if CommandOf(env, samples[k]).Success? then [CommandOf(env, samples[k]).value] else [])
  {
    BatchAllPass(env, samples[..k]);
    BatchSnoc(env, samples, k);
    assert samples[..k + 1][..k] == samples[..k];
    BatchStopsAfterFailure(env, samples, k + 1);
    StepExecs(env, samples[k], CommandOf(env, samples[k]));
    ExecsAppend(Batch(env, samples[..k]).events, SampleStep(env, samples[k]).events);
  }

  /**
   * A failing run's error is raised by the builder or carries the command
   * and its nonzero exit code; the message names both.
   */
  lemma StepFailure(env: BatchEnv, s: Sample)
    requires SampleStep(env, s).outcome.Fail?
    ensures var e := SampleStep(env, s).outcome.error;
            match CommandOf(env, s)
            case Failure(b) => e == b
            case Success(cmd) => e == CommandFailed(cmd, env.exec(cmd)) && env.exec(cmd) != 0
  {
  }

  /**
   * The process started at position `p` logs to a file exactly when
   * `dropOutput`, and then is immediately preceded by the opening of that file
   * and immediately followed by its closing, before the exit code is looked at.
   */
  predicate ExecWrapped(events: seq<Event>, p: int, dropOutput: bool)
    requires 0 <= p < |events|
  {
    events[p].Exec? ==>
      && events[p].toLog == dropOutput
      && (dropOutput ==> && 0 < p && p + 1 < |events|
                         && events[p - 1].OpenLog? && events[p + 1] == CloseLog(events[p - 1].path))
  }

  /** Every started process is wrapped by its log file; without `dropOutput` no log file is opened. */
  predicate LogDiscipline(events: seq<Event>, dropOutput: bool)
  {
    && (forall p :: 0 <= p < |events| ==> ExecWrapped(events, p, dropOutput))
    && (!dropOutput ==> forall p :: 0 <= p < |events| ==> !events[p].OpenLog? && !events[p].CloseLog?)
  }

  lemma LogDisciplineAppend(a: seq<Event>, b: seq<Event>, dropOutput: bool)
    requires LogDiscipline(a, dropOutput) && LogDiscipline(b, dropOutput)
    ensures LogDiscipline(a + b, dropOutput)
  {
    var e := a + b;
    forall p | 0 <= p < |e| ensures ExecWrapped(e, p, dropOutput) {
      if p < |a| {
        assert ExecWrapped(a, p, dropOutput);
        assert e[p] == a[p];
        if dropOutput && a[p].Exec? {
          assert e[p - 1] == a[p - 1] && e[p + 1] == a[p + 1];
        }
      } else {
        var q := p - |a|;
        assert ExecWrapped(b, q, dropOutput);
        assert e[p] == b[q];
        if dropOutput && b[q].Exec? {
          assert e[p - 1] == b[q - 1] && e[p + 1] == b[q + 1];
        }
      }
    }
    if !dropOutput {
      forall p | 0 <= p < |e| ensures !e[p].OpenLog? && !e[p].CloseLog? {
        if p < |a| {
          assert e[p] == a[p];
        } else {
          assert e[p] == b[p - |a|];
        }
      }
    }
  }

  lemma StepLogDiscipline(env: BatchEnv, s: Sample, built: Result<seq<string>, Error>)
    ensures LogDiscipline(StepOf(env, s, built).events, env.dropOutput)
  {
  }

  /** The whole batch trace keeps the log discipline. */
  lemma {:induction false} BatchLogDiscipline(env: BatchEnv, samples: seq<Sample>)
    ensures LogDiscipline(Batch(env, samples).events, env.dropOutput)
    decreases |samples|
  {
    if samples != [] {
      var n := |samples| - 1;
      BatchLogDiscipline(env, samples[..n]);
      if Batch(env, samples[..n]).outcome.Pass? {
        StepLogDiscipline(env, samples[n], CommandOf(env, samples[n]));
        LogDisciplineAppend(Batch(env, samples[..n]).events, SampleStep(env, samples[n]).events, env.dropOutput);
      }
    }
  }
}
