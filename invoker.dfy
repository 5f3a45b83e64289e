/** The plugin's `run`: one invocation of the `swiftlint` tool. It builds the
    tool's argument vector from the command's arguments (dropping the first
    `--target <name>` pair, adding `--cache-path <work directory>` unless the
    arguments name the `analyze` subcommand, and ending with the directory to
    lint), launches the tool with the package directory as its working
    directory, and turns the way the process ended into diagnostics.

    Launching and waiting are not modelled: the outcome of a launch is an
    input (`Launch`), as is the plugin context (`Environment`). */
module Invoker {
  import opened Wrappers
  import opened Diagnostics

  const TARGET_OPTION := "--target"
  const CACHE_PATH_OPTION := "--cache-path"
  const ANALYZE_COMMAND := "analyze"
  /** The directory `run` lints when it is not given one. */
  const DEFAULT_DIRECTORY := "."
  /** EXIT_SUCCESS of the C library. */
  const EXIT_SUCCESS: int32 := 0

  /** Foundation's `Process.TerminationReason`; Unrecognized stands for any
      case a later Foundation adds (the source's `@unknown default`). */
  datatype TerminationReason = Exit | UncaughtSignal | Unrecognized

  /** What happened when the tool was launched: `process.run()` threw, or the
      process ran and ended with a reason and a status. */
  datatype Launch = LaunchFailed | Terminated(reason: TerminationReason, status: int32)

  /** Ways a run stops the whole command: `context.tool(named:)` throws, the
      range removal traps because `--target` is the last argument, or
      `process.run()` throws. */
  datatype Fault = ToolNotFound | TargetValueMissing | ProcessLaunchFailed

  /** What a run reads from the plugin context: the package directory, the
      plugin's work directory and the path of the `swiftlint` tool, if the
      host can provide one. */
  datatype Environment = Environment(packageDirectory: string, workDirectory: string, tool: Option<string>)

  /** The process a run launches. */
  datatype ProcessSpec = ProcessSpec(executable: string, currentDirectory: string, arguments: seq<string>)

  datatype RunResult = Aborted(fault: Fault) | Completed(process: ProcessSpec, diagnostics: seq<Diagnostic>)

  // ---------------------------------------------------------------------------
  // Argument construction

  /** i is the index of the first element of s that equals x. */
  predicate FirstOccurrence(s: seq<string>, x: string, i: int) {
    0 <= i < |s| && s[i] == x && forall k | 0 <= k < i :: s[k] != x
  }

  /** Swift's `firstIndex(of:)`. */
  function FirstIndex(s: seq<string>, x: string): (r: Option<nat>)
    ensures r.None? <==> x !in s
    ensures r.Some? ==> FirstOccurrence(s, x, r.value)
  {
    if s == [] then None
    else if s[0] == x then Some(0)
    else
      match FirstIndex(s[1..], x)
      case None => assert s == [s[0]] + s[1..]; None
      case Some(i) =>
        assert forall k | 1 <= k < i + 1 :: s[k] == s[1..][k - 1];
        Some(i + 1)
  }

  /** The arguments with the first `--target` and the element after it
      removed; an error where `--target` is the last element (the source's
      `removeSubrange` traps there). */
  function StripTargetOption(arguments: seq<string>): (r: Result<seq<string>, Fault>)
    ensures TARGET_OPTION !in arguments ==> r == Ok(arguments)
    ensures forall i | FirstOccurrence(arguments, TARGET_OPTION, i) ::
      r == if i + 1 < |arguments| then Ok(arguments[..i] + arguments[i + 2..]) else Err(TargetValueMissing)
  {
    match FirstIndex(arguments, TARGET_OPTION)
    case None => Ok(arguments)
    case Some(i) =>
      if i + 1 < |arguments| then Ok(arguments[..i] + arguments[i + 2..]) else Err(TargetValueMissing)
  }

  /** The argument vector the tool is launched with, in the directory
      `directory`: the stripped arguments, then `--cache-path` and the work
      directory unless `analyze` is one of the (unstripped) arguments, then the
      directory. */
  function ToolArguments(arguments: seq<string>, workDirectory: string, directory: string): (r: Result<seq<string>, Fault>)
    ensures r.Err? <==> StripTargetOption(arguments).Err?
    ensures r.Err? ==> r.error == TargetValueMissing
    ensures r.Ok? ==>
      var filtered := StripTargetOption(arguments).value;
      && |r.value| == |filtered| + (if ANALYZE_COMMAND in arguments then 1 else 3)
      && r.value[..|filtered|] == filtered
      && r.value[|r.value| - 1] == directory
      && (ANALYZE_COMMAND !in arguments ==> r.value[|filtered|..|filtered| + 2] == [CACHE_PATH_OPTION, workDirectory])
  {
    match StripTargetOption(arguments)
    case Err(e) => Err(e)
    case Ok(filtered) =>
      var cache := if ANALYZE_COMMAND in arguments then [] else [CACHE_PATH_OPTION, workDirectory];
      Ok(filtered + cache + [directory])
  }

  /** Where a first `--target` has a value, exactly that pair goes: two
      elements fewer, and the multiset of the rest is kept. */
  lemma StripRemovesOnePair(arguments: seq<string>, i: nat)
    requires FirstOccurrence(arguments, TARGET_OPTION, i) && i + 1 < |arguments|
    ensures StripTargetOption(arguments).Ok?
    ensures var filtered := StripTargetOption(arguments).value;
      && |filtered| == |arguments| - 2
      && multiset(filtered) + multiset{TARGET_OPTION, arguments[i + 1]} == multiset(arguments)
  {
    var filtered := StripTargetOption(arguments).value;
    assert arguments == arguments[..i] + [arguments[i], arguments[i + 1]] + arguments[i + 2..];
    assert filtered == arguments[..i] + arguments[i + 2..];
  }

  /** Only the first pair is removed: a `--target` after it reaches the tool. */
  lemma StripForwardsLaterPairs(arguments: seq<string>, i: nat)
    requires FirstOccurrence(arguments, TARGET_OPTION, i) && i + 1 < |arguments|
    ensures StripTargetOption(arguments).Ok?
    ensures TARGET_OPTION in StripTargetOption(arguments).value <==> TARGET_OPTION in arguments[i + 2..]
  {
    var filtered := StripTargetOption(arguments).value;
    assert filtered == arguments[..i] + arguments[i + 2..];
    assert TARGET_OPTION !in arguments[..i] by {
      forall k | 0 <= k < i ensures arguments[..i][k] != TARGET_OPTION {
      }
    }
  }

  /** With `--cache-path` absent from the command's arguments (the command
      refuses it before any run), the tool receives it exactly once, or never
      when the arguments name `analyze`. */
  lemma CachePathOnceUnlessAnalyze(arguments: seq<string>, workDirectory: string, directory: string)
    requires CACHE_PATH_OPTION !in arguments
    requires workDirectory != CACHE_PATH_OPTION && directory != CACHE_PATH_OPTION
    requires ToolArguments(arguments, workDirectory, directory).Ok?
    ensures multiset(ToolArguments(arguments, workDirectory, directory).value)[CACHE_PATH_OPTION]
            == if ANALYZE_COMMAND in arguments then 0 else 1
  {
    var filtered := StripTargetOption(arguments).value;
    assert multiset(filtered)[CACHE_PATH_OPTION] == 0 by {
      match FirstIndex(arguments, TARGET_OPTION)
      case None =>
      case Some(i) => StripRemovesOnePair(arguments, i);
    }
    var cache := if ANALYZE_COMMAND in arguments then [] else [CACHE_PATH_OPTION, workDirectory];
    assert ToolArguments(arguments, workDirectory, directory).value == filtered + cache + [directory];
  }

  // ---------------------------------------------------------------------------
  // Outcome classification

  /** How the diagnostics of a run name what was linted. */
  function ModuleLabel(targetName: Option<string>): string {
    match targetName
    case None => "package"
    case Some(name) => "module '" + name + "'"
  }

  /** Different targets, and the package, get different labels. */
  lemma ModuleLabelInjective(a: Option<string>, b: Option<string>)
    requires ModuleLabel(a) == ModuleLabel(b)
    ensures a == b
  {
    if a.Some? && b.Some? {
      SameFrame("module '", a.value, b.value, "'");
    }
  }

  /** The diagnostics for a process that ended with `reason` and `status`: one
      for the termination reason, and an exit-code error for a nonzero status
      whatever the reason. All of them name `scope`. */
  function Classify(reason: TerminationReason, status: int32, scope: string): (ds: seq<Diagnostic>)
    ensures |ds| == if status == EXIT_SUCCESS then 1 else 2
    ensures forall d | d in ds :: d.Scope() == Some(scope)
    ensures ds[0].Level() == Remark <==> reason == Exit
    ensures GotUncaughtSignal(scope) in ds <==> reason == UncaughtSignal
    ensures StoppedUnexpectedly(scope) in ds <==> reason == Unrecognized
    ensures ExitCodeError(status, scope) in ds <==> status != EXIT_SUCCESS
    ensures status != EXIT_SUCCESS ==> ds[1] == ExitCodeError(status, scope)
  {
    var first := match reason
      case Exit => FinishedRunning(scope)
      case UncaughtSignal => GotUncaughtSignal(scope)
      case Unrecognized => StoppedUnexpectedly(scope);
    if status != EXIT_SUCCESS then [first, ExitCodeError(status, scope)] else [first]
  }

  /** A run reports no error exactly when the process exited normally with
      status zero. */
  lemma ClassifyErrorFree(reason: TerminationReason, status: int32, scope: string)
    ensures (forall d | d in Classify(reason, status, scope) :: d.Level() != Error)
            <==> reason == Exit && status == EXIT_SUCCESS
  {
    var ds := Classify(reason, status, scope);
    if status != EXIT_SUCCESS {
      assert ds[1].Level() == Error;
    }
    if reason != Exit {
      assert ds[0].Level() == Error;
    }
  }

  // ---------------------------------------------------------------------------
  // One run

  /** The result of running the tool in `directory` for `targetName`. */
  function RunResultFor(directory: string, targetName: Option<string>, arguments: seq<string>,
                        env: Environment, launch: Launch): RunResult
  {
    match env.tool
    case None => Aborted(ToolNotFound)
    case Some(tool) =>
      match ToolArguments(arguments, env.workDirectory, directory)
      case Err(e) => Aborted(e)
      case Ok(argv) =>
        match launch
        case LaunchFailed => Aborted(ProcessLaunchFailed)
        case Terminated(reason, status) =>
          Completed(ProcessSpec(tool, env.packageDirectory, argv), Classify(reason, status, ModuleLabel(targetName)))
  }

  /** A run completes exactly when the tool is found, the arguments can be
      stripped and the process starts; the tool is looked for first. A
      completed run launched the tool in the package directory (not the linted
      one, which is the last argument) and reports the classification of how
      the process ended, under the run's label. */
  lemma RunResultFacts(directory: string, targetName: Option<string>, arguments: seq<string>,
                       env: Environment, launch: Launch)
    ensures var r := RunResultFor(directory, targetName, arguments, env, launch);
      && (r.Completed? <==> env.tool.Some? && StripTargetOption(arguments).Ok? && launch.Terminated?)
      && (r.Aborted? ==> (r.fault == ToolNotFound <==> env.tool.None?))
      && (r.Aborted? && r.fault == ProcessLaunchFailed ==> launch.LaunchFailed?)
      && (r.Completed? ==>
            && r.process.executable == env.tool.value
            && r.process.currentDirectory == env.packageDirectory
            && ToolArguments(arguments, env.workDirectory, directory) == Ok(r.process.arguments)
            && r.process.arguments[|r.process.arguments| - 1] == directory
            && r.diagnostics == Classify(launch.reason, launch.status, ModuleLabel(targetName)))
  {
  }

  /** `run(in:for:with:arguments:)`: the argument vector is built by changing
      a local copy of the arguments in place. */
  method Run(directory: string, targetName: Option<string>, arguments: seq<string>,
             env: Environment, launch: Launch) returns (r: RunResult)
    ensures r == RunResultFor(directory, targetName, arguments, env, launch)
  {
    if env.tool.None? {
      return Aborted(ToolNotFound);
    }
    var process := ProcessSpec(env.tool.value, env.packageDirectory, []);

    var filteredArguments := arguments;
    var targetIndex := FirstIndex(filteredArguments, TARGET_OPTION);
    if targetIndex.Some? {
      var i := targetIndex.value;
      if i + 1 >= |filteredArguments| {
        return Aborted(TargetValueMissing);
      }
      filteredArguments := filteredArguments[..i] + filteredArguments[i + 2..];
    }

    process := process.(arguments := filteredArguments);
    if ANALYZE_COMMAND !in arguments {
      process := process.(arguments := process.arguments + [CACHE_PATH_OPTION, env.workDirectory]);
    }
    process := process.(arguments := process.arguments + [directory]);

    if launch.LaunchFailed? {
      return Aborted(ProcessLaunchFailed);
    }
    var scope := ModuleLabel(targetName);
    r := Completed(process, Classify(launch.reason, launch.status, scope));
  }

  // ---------------------------------------------------------------------------
  // Examples

  /** A named target's pair is dropped and the cache path is added. */
  lemma LintOneTargetExample(workDirectory: string)
    ensures ToolArguments(["--target", "Foo", "lint"], workDirectory, "/pkg/Sources/Foo")
            == Ok(["lint", "--cache-path", workDirectory, "/pkg/Sources/Foo"])
  {
    var arguments := ["--target", "Foo", "lint"];
    assert FirstOccurrence(arguments, TARGET_OPTION, 0);
    assert arguments[..0] + arguments[2..] == ["lint"];
    assert ANALYZE_COMMAND !in arguments;
    assert ["lint"] + [CACHE_PATH_OPTION, workDirectory] + ["/pkg/Sources/Foo"]
        == ["lint", "--cache-path", workDirectory, "/pkg/Sources/Foo"];
  }

  /** `analyze` gets no cache path. */
  lemma AnalyzeExample(workDirectory: string)
    ensures ToolArguments(["analyze"], workDirectory, "/pkg/Sources/A") == Ok(["analyze", "/pkg/Sources/A"])
  {
    assert TARGET_OPTION !in ["analyze"];
    assert ["analyze"] + [] + ["/pkg/Sources/A"] == ["analyze", "/pkg/Sources/A"];
  }

  /** A second `--target` pair is forwarded to the tool. */
  lemma SecondTargetForwardedExample(workDirectory: string)
    ensures ToolArguments(["--target", "A", "--target", "B", "lint"], workDirectory, "/pkg/Sources/A")
            == Ok(["--target", "B", "lint", "--cache-path", workDirectory, "/pkg/Sources/A"])
  {
    var arguments := ["--target", "A", "--target", "B", "lint"];
    assert FirstOccurrence(arguments, TARGET_OPTION, 0);
    assert arguments[..0] + arguments[2..] == ["--target", "B", "lint"];
    assert ANALYZE_COMMAND !in arguments;
    assert ["--target", "B", "lint"] + [CACHE_PATH_OPTION, workDirectory] + ["/pkg/Sources/A"]
        == ["--target", "B", "lint", "--cache-path", workDirectory, "/pkg/Sources/A"];
  }

  /** A normal exit with status 2 gives the remark and exactly one error, which
      shows the code as "2" and names the module. */
  lemma ExitStatusTwoExample(name: string)
    ensures Classify(Exit, 2, ModuleLabel(Some(name)))
            == [FinishedRunning("module '" + name + "'"), ExitCodeError(2, "module '" + name + "'")]
    ensures Decimal(2) == "2"
    ensures |set d | d in Classify(Exit, 2, ModuleLabel(Some(name))) && d.Level() == Error| == 1
  {
    var ds := Classify(Exit, 2, ModuleLabel(Some(name)));
    assert (set d | d in ds && d.Level() == Error) == {ds[1]};
  }
}
