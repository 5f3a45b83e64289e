/** The plugin's `performCommand`: refuse a `--cache-path` argument, choose
    the targets to lint (the named ones, or all of the package's), and run the
    tool once per source-module target in order, skipping the others with a
    warning; with no target at all, run it once for the package.

    The names given with `--target` and the package's targets are inputs: the
    argument extractor and the host's package model are not modelled. */
module Dispatcher {
  import opened Wrappers
  import opened Diagnostics
  import opened Invoker

  /** A target of the package, as the host describes it. */
  datatype Target = Target(name: string, directory: string, isSourceModule: bool)

  /** One planned run of the tool: the directory to lint and, when it is one
      target's, that target's name. */
  datatype Invocation = Invocation(directory: string, targetName: Option<string>)

  /** What the command does for one selected target, in order. */
  datatype Step = Invoke(invocation: Invocation) | Skip(targetName: string)

  datatype Plan = Rejected | Unresolved(name: string) | Planned(steps: seq<Step>)

  /** The run for the whole package, made when no target is selected. */
  const PACKAGE_INVOCATION := Invocation(DEFAULT_DIRECTORY, None)

  // ---------------------------------------------------------------------------
  // Target selection

  /** j is the index of the first target named `name`. */
  predicate FirstNamed(targets: seq<Target>, name: string, j: int) {
    0 <= j < |targets| && targets[j].name == name && forall k | 0 <= k < j :: targets[k].name != name
  }

  /** Some target is named `name`. */
  predicate Resolves(targets: seq<Target>, name: string) {
    exists t | t in targets :: t.name == name
  }

  /** The first target named `name`. */
  function FindTarget(targets: seq<Target>, name: string): (r: Option<Target>)
    ensures r.None? <==> forall t | t in targets :: t.name != name
    ensures r.Some? ==> r.value in targets && r.value.name == name
    ensures forall j | FirstNamed(targets, name, j) :: r == Some(targets[j])
  {
    if targets == [] then None
    else if targets[0].name == name then Some(targets[0])
    else
      assert forall t | t in targets :: t == targets[0] || t in targets[1..];
      assert forall j | FirstNamed(targets, name, j) :: FirstNamed(targets[1..], name, j - 1);
      FindTarget(targets[1..], name)
  }

  /** The host's `targets(named:)`: one target per name, in the order of the
      names, each the first target with that name, failing on the first name
      no target has. */
  function TargetsNamed(targets: seq<Target>, names: seq<string>): (r: Result<seq<Target>, string>)
    ensures r.Ok? <==> forall n | n in names :: Resolves(targets, n)
    ensures r.Ok? ==>
      && |r.value| == |names|
      && forall i | 0 <= i < |names| :: r.value[i] in targets && r.value[i].name == names[i]
    ensures r.Ok? ==> forall i | 0 <= i < |names| :: FindTarget(targets, names[i]) == Some(r.value[i])
    ensures r.Err? ==> r.error in names && forall t | t in targets :: t.name != r.error
    ensures r.Err? ==>
      exists j | 0 <= j < |names| && names[j] == r.error :: forall m | 0 <= m < j :: Resolves(targets, names[m])
  {
    if names == [] then Ok([])
    else
      match FindTarget(targets, names[0])
      case None =>
        assert names[0] in names;
        Err(names[0])
      case Some(t) =>
        match TargetsNamed(targets, names[1..])
        case Err(n) =>
          assert forall m | m in names[1..] :: m in names;
          var j :| 0 <= j < |names[1..]| && names[1..][j] == n
                   && forall m | 0 <= m < j :: Resolves(targets, names[1..][m]);
          assert Resolves(targets, names[0]);
          assert forall m | 1 <= m < j + 1 :: names[m] == names[1..][m - 1];
          assert names[j + 1] == n;
          Err(n)
        case Ok(rest) =>
          assert forall n | n in names :: n == names[0] || n in names[1..];
          Ok([t] + rest)
  }

  /** The targets the command runs over: every target of the package when no
      name is given, otherwise the named ones. */
  function SelectTargets(targetNames: seq<string>, packageTargets: seq<Target>): (r: Result<seq<Target>, string>)
    ensures targetNames == [] ==> r == Ok(packageTargets)
    ensures targetNames != [] && r.Ok? ==>
      && |r.value| == |targetNames|
      && forall i | 0 <= i < |targetNames| :: r.value[i] in packageTargets && r.value[i].name == targetNames[i]
    ensures r.Err? ==> r.error in targetNames && forall t | t in packageTargets :: t.name != r.error
  {
    if targetNames == [] then Ok(packageTargets) else TargetsNamed(packageTargets, targetNames)
  }

  // ---------------------------------------------------------------------------
  // Planning

  function StepFor(target: Target): Step {
    if target.isSourceModule then Invoke(Invocation(target.directory, Some(target.name)))
    else Skip(target.name)
  }

  /** The steps for the targets, one per target in order. */
  function StepsFor(targets: seq<Target>): seq<Step> {
    if targets == [] then []
    else StepsFor(targets[..|targets| - 1]) + [StepFor(targets[|targets| - 1])]
  }

  /** The steps for the selected targets, or the single package run when there
      are none. */
  function PlanSteps(targets: seq<Target>): seq<Step> {
    if targets == [] then [Invoke(PACKAGE_INVOCATION)] else StepsFor(targets)
  }

  /** The runs a sequence of steps makes, in order. */
  function Invocations(steps: seq<Step>): seq<Invocation> {
    if steps == [] then []
    else
      var last := steps[|steps| - 1];
      Invocations(steps[..|steps| - 1]) + if last.Invoke? then [last.invocation] else []
  }

  /** The source-module targets, in order. */
  function SourceModules(targets: seq<Target>): seq<Target> {
    if targets == [] then []
    else
      var last := targets[|targets| - 1];
      SourceModules(targets[..|targets| - 1]) + if last.isSourceModule then [last] else []
  }

  /** The run for each target, in order. */
  function InvocationsOf(targets: seq<Target>): (r: seq<Invocation>)
    ensures |r| == |targets|
  {
    seq(|targets|, i requires 0 <= i < |targets| => Invocation(targets[i].directory, Some(targets[i].name)))
  }

  /** The decisions of `performCommand`, before any run: refusal, the name
      the host cannot resolve, or the steps in order. */
  method PlanCommand(arguments: seq<string>, targetNames: seq<string>, packageTargets: seq<Target>)
    returns (plan: Plan)
    ensures plan.Rejected? <==> CACHE_PATH_OPTION in arguments
    ensures CACHE_PATH_OPTION !in arguments ==>
      match SelectTargets(targetNames, packageTargets)
      case Err(name) => plan == Unresolved(name)
      case Ok(targets) => plan == Planned(PlanSteps(targets))
  {
    if CACHE_PATH_OPTION in arguments {
      return Rejected;
    }
    var selected := SelectTargets(targetNames, packageTargets);
    if selected.Err? {
      return Unresolved(selected.error);
    }
    var targets := selected.value;
    if targets == [] {
      return Planned([Invoke(PACKAGE_INVOCATION)]);
    }
    var steps: seq<Step> := [];
    for i := 0 to |targets|
      invariant steps == StepsFor(targets[..i])
    {
      assert targets[..i + 1][..i] == targets[..i];
      var target := targets[i];
      if !target.isSourceModule {
        steps := steps + [Skip(target.name)];
        continue;
      }
      steps := steps + [Invoke(Invocation(target.directory, Some(target.name)))];
    }
    assert targets[..|targets|] == targets;
    return Planned(steps);
  }

  /** One step per target, in order: a run in the target's directory under its
      name for a source module, a skip (and its warning) for any other. */
  lemma {:induction false} StepsForAt(targets: seq<Target>)
    ensures |StepsFor(targets)| == |targets|
    ensures forall i | 0 <= i < |targets| ::
      StepsFor(targets)[i] == if targets[i].isSourceModule
                              then Invoke(Invocation(targets[i].directory, Some(targets[i].name)))
                              else Skip(targets[i].name)
  {
    if targets != [] {
      var init := targets[..|targets| - 1];
      StepsForAt(init);
      assert forall i | 0 <= i < |init| :: targets[i] == init[i];
    }
  }

  lemma {:induction false} InvocationsAppend(steps: seq<Step>, step: Step)
    ensures Invocations(steps + [step]) == Invocations(steps) + if step.Invoke? then [step.invocation] else []
  {
    assert (steps + [step])[..|steps|] == steps;
  }

  /** The runs of the steps are those of the source-module targets, in target
      order: a skipped target stops nothing after it. */
  lemma {:induction false} InvocationsAreSourceModules(targets: seq<Target>)
    ensures Invocations(StepsFor(targets)) == InvocationsOf(SourceModules(targets))
  {
    if targets != [] {
      var init, last := targets[..|targets| - 1], targets[|targets| - 1];
      InvocationsAreSourceModules(init);
      InvocationsAppend(StepsFor(init), StepFor(last));
      var before := SourceModules(init);
      if last.isSourceModule {
        assert InvocationsOf(before + [last]) == InvocationsOf(before) + [Invocation(last.directory, Some(last.name))];
      }
    }
  }

  lemma {:induction false} SourceModuleKept(targets: seq<Target>, j: nat)
    requires j < |targets| && targets[j].isSourceModule
    ensures targets[j] in SourceModules(targets)
  {
    var init := targets[..|targets| - 1];
    if j < |targets| - 1 {
      assert init[j] == targets[j];
      SourceModuleKept(init, j);
    }
  }

  /** Every source-module target among the selected ones gets its run, with its
      directory and its name, whatever targets come before it. */
  lemma EverySourceModuleRuns(targets: seq<Target>, j: nat)
    requires j < |targets| && targets[j].isSourceModule
    ensures Invocation(targets[j].directory, Some(targets[j].name)) in Invocations(PlanSteps(targets))
  {
    InvocationsAreSourceModules(targets);
    SourceModuleKept(targets, j);
    var sources := SourceModules(targets);
    var k :| 0 <= k < |sources| && sources[k] == targets[j];
    assert InvocationsOf(sources)[k] == Invocation(targets[j].directory, Some(targets[j].name));
  }

  /** Every run of a non-empty selection is a source-module target's and names
      it; the package run happens exactly when nothing is selected. */
  lemma PackageRunOnlyWithoutTargets(targets: seq<Target>)
    ensures targets == [] ==> Invocations(PlanSteps(targets)) == [PACKAGE_INVOCATION]
    ensures targets != [] ==> forall inv | inv in Invocations(PlanSteps(targets)) ::
      exists t | t in targets :: t.isSourceModule && inv == Invocation(t.directory, Some(t.name))
    ensures PACKAGE_INVOCATION in Invocations(PlanSteps(targets)) <==> targets == []
  {
    if targets == [] {
      assert Invocations([Invoke(PACKAGE_INVOCATION)]) == Invocations([]) + [PACKAGE_INVOCATION];
    } else {
      InvocationsAreSourceModules(targets);
      SourceModulesFrom(targets);
    }
  }

  lemma {:induction false} SourceModulesFrom(targets: seq<Target>)
    ensures forall t | t in SourceModules(targets) :: t in targets && t.isSourceModule
  {
    if targets != [] {
      var init := targets[..|targets| - 1];
      SourceModulesFrom(init);
      assert forall t | t in init :: t in targets;
    }
  }

  // ---------------------------------------------------------------------------
  // Running the plan

  /** What the command reports for one step: the skip warning, or the run's
      process and diagnostics. */
  datatype Report = Skipped(targetName: string) | Ran(process: ProcessSpec, diagnostics: seq<Diagnostic>)

  datatype CommandOutcome =
    | CachePathRejected
    | TargetNotFound(name: string)
    | Dispatched(reports: seq<Report>, fault: Option<Fault>)

  /** The diagnostics a report stands for. */
  function ReportDiagnostics(report: Report): seq<Diagnostic> {
    match report
    case Skipped(name) => [NotSourceModule(name)]
    case Ran(_, ds) => ds
  }

  /** Everything the command reports, in order: the refusal, or the
      diagnostics of each step that was reached. A name the host cannot
      resolve is thrown to the host, which reports it. */
  function Emitted(outcome: CommandOutcome): seq<Diagnostic> {
    match outcome
    case CachePathRejected => [CachePathNotAllowed]
    case TargetNotFound(_) => []
    case Dispatched(reports, _) => ReportsDiagnostics(reports)
  }

  function ReportsDiagnostics(reports: seq<Report>): seq<Diagnostic> {
    if reports == [] then []
    else ReportsDiagnostics(reports[..|reports| - 1]) + ReportDiagnostics(reports[|reports| - 1])
  }

  /** What `step` yields when its run, if any, has launch outcome `launch`:
      its report, or the fault that ends the command. */
  function StepResult(step: Step, arguments: seq<string>, env: Environment, launch: Launch): Result<Report, Fault> {
    match step
    case Skip(name) => Ok(Skipped(name))
    case Invoke(inv) =>
      match RunResultFor(inv.directory, inv.targetName, arguments, env, launch)
      case Aborted(fault) => Err(fault)
      case Completed(process, ds) => Ok(Ran(process, ds))
  }

  lemma {:induction false} ReportsDiagnosticsContain(reports: seq<Report>, k: nat)
    requires k < |reports|
    ensures forall d | d in ReportDiagnostics(reports[k]) :: d in ReportsDiagnostics(reports)
  {
    var init := reports[..|reports| - 1];
    if k < |reports| - 1 {
      assert init[k] == reports[k];
      ReportsDiagnosticsContain(init, k);
    }
  }

  /** A reached step that skips a target leaves that target's warning among
      what the command reports, whatever the steps around it do. */
  lemma SkippedTargetWarned(steps: seq<Step>, reports: seq<Report>, arguments: seq<string>,
                            env: Environment, launch: nat -> Launch, k: nat)
    requires |reports| <= |steps|
    requires forall j | 0 <= j < |reports| ::
      StepResult(steps[j], arguments, env, launch(LaunchesBefore(steps, j))) == Ok(reports[j])
    requires k < |reports| && steps[k].Skip?
    ensures NotSourceModule(steps[k].targetName) in ReportsDiagnostics(reports)
    ensures NotSourceModule(steps[k].targetName).Level() == Warning
  {
    ReportsDiagnosticsContain(reports, k);
  }

  /** A step's report carries a warning exactly when the step skips a target
      that is not a source module; a run reports no warning. */
  lemma WarnsExactlyWhenSkipped(step: Step, arguments: seq<string>, env: Environment, launch: Launch)
    requires StepResult(step, arguments, env, launch).Ok?
    ensures (exists d | d in ReportDiagnostics(StepResult(step, arguments, env, launch).value) :: d.Level() == Warning)
            <==> step.Skip?
  {
    var report := StepResult(step, arguments, env, launch).value;
    match step
    case Skip(name) =>
      assert NotSourceModule(name) in ReportDiagnostics(report);
    case Invoke(inv) =>
      RunResultFacts(inv.directory, inv.targetName, arguments, env, launch);
  }

  /** A process that ran never ends the command, whatever its termination
      reason and status: only a missing tool, a `--target` without a value or a
      failed launch do. */
  lemma TerminatedRunContinues(inv: Invocation, arguments: seq<string>, env: Environment,
                               reason: TerminationReason, status: int32)
    ensures StepResult(Invoke(inv), arguments, env, Terminated(reason, status)).Ok?
            <==> env.tool.Some? && StripTargetOption(arguments).Ok?
  {
    RunResultFacts(inv.directory, inv.targetName, arguments, env, Terminated(reason, status));
  }

  /** How many launches the steps before step k make. */
  function LaunchesBefore(steps: seq<Step>, k: nat): nat
    requires k <= |steps|
  {
    |Invocations(steps[..k])|
  }

  lemma LaunchesBeforeNext(steps: seq<Step>, i: nat)
    requires i < |steps|
    ensures LaunchesBefore(steps, i + 1) == LaunchesBefore(steps, i) + if steps[i].Invoke? then 1 else 0
  {
    InvocationsAppend(steps[..i], steps[i]);
    assert steps[..i + 1] == steps[..i] + [steps[i]];
  }

  /** The runs of `steps`, one after the other, where the k-th launch of the
      tool has outcome `launch(k)`: a failing or signalled run does not stop
      the next one, and a fault in a run ends the command there. */
  method Execute(steps: seq<Step>, arguments: seq<string>, env: Environment, launch: nat -> Launch)
    returns (reports: seq<Report>, fault: Option<Fault>)
    ensures |reports| <= |steps|
    ensures fault.None? <==> |reports| == |steps|
    ensures forall k | 0 <= k < |reports| ::
      StepResult(steps[k], arguments, env, launch(LaunchesBefore(steps, k))) == Ok(reports[k])
    ensures fault.Some? ==>
      StepResult(steps[|reports|], arguments, env, launch(LaunchesBefore(steps, |reports|))) == Err(fault.value)
  {
    reports := [];
    var launched := 0;
    for i := 0 to |steps|
      invariant |reports| == i
      invariant launched == LaunchesBefore(steps, i)
      invariant forall k | 0 <= k < i ::
        StepResult(steps[k], arguments, env, launch(LaunchesBefore(steps, k))) == Ok(reports[k])
    {
      LaunchesBeforeNext(steps, i);
      match steps[i]
      case Skip(name) =>
        reports := reports + [Skipped(name)];
      case Invoke(inv) =>
        var result := Run(inv.directory, inv.targetName, arguments, env, launch(launched));
        if result.Aborted? {
          return reports, Some(result.fault);
        }
        reports := reports + [Ran(result.process, result.diagnostics)];
        launched := launched + 1;
    }
    fault := None;
  }

  /** `performCommand`: plan, then run the plan's steps in order. */
  method PerformCommand(arguments: seq<string>, targetNames: seq<string>, packageTargets: seq<Target>,
                        env: Environment, launch: nat -> Launch)
    returns (outcome: CommandOutcome)
    ensures CACHE_PATH_OPTION in arguments ==>
      && outcome == CachePathRejected
      && |Emitted(outcome)| == 1 && Emitted(outcome)[0].Level() == Error
    ensures CACHE_PATH_OPTION !in arguments ==>
      match SelectTargets(targetNames, packageTargets)
      case Err(name) => outcome == TargetNotFound(name)
      case Ok(targets) =>
        var steps := PlanSteps(targets);
        && outcome.Dispatched?
        && |outcome.reports| <= |steps|
        && (outcome.fault.None? <==> |outcome.reports| == |steps|)
        && (forall k | 0 <= k < |outcome.reports| ::
              StepResult(steps[k], arguments, env, launch(LaunchesBefore(steps, k))) == Ok(outcome.reports[k]))
        && (outcome.fault.Some? ==>
              StepResult(steps[|outcome.reports|], arguments, env, launch(LaunchesBefore(steps, |outcome.reports|)))
              == Err(outcome.fault.value))
  {
    var plan := PlanCommand(arguments, targetNames, packageTargets);
    match plan
    case Rejected =>
      return CachePathRejected;
    case Unresolved(name) =>
      return TargetNotFound(name);
    case Planned(steps) =>
      var reports, fault := Execute(steps, arguments, env, launch);
      return Dispatched(reports, fault);
  }
}
