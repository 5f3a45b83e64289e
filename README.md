# SwiftLint command plugin, modelled in Dafny

This project models the SwiftPM command plugin that runs `swiftlint` over a package. It models the plugin's two functions in
`Plugins/SwiftLintCommandPlugin/SwiftLintCommandPlugin.swift`:

- `performCommand` works as follows:
  - It refuses a `--cache-path` argument with an error.
  - It selects the targets to lint. These are all of the package's targets when no `--target` name is given, and otherwise the named ones. A name the host cannot resolve is fatal.
  - It runs the tool once per source-module target, in order. It skips each other target with a warning.
  - When no target is selected, it runs the tool once for the package, in directory `"."`.
- `run` works as follows:
  - It builds the tool's argument vector, as described in the list below.
  - It launches the tool with the package directory as the working directory.
  - It turns the termination reason and status into diagnostics.
- The argument vector `run` builds:
  - It drops the first `--target` and the element after it.
  - It adds `--cache-path <plugin work directory>` unless `analyze` is one of the original arguments.
  - It ends with the directory to lint.

The model has four modules:

- `Wrappers` holds `Option` and `Result`.
- `Diagnostics` holds the diagnostics the plugin emits, as values. Each has a severity and the exact text the plugin prints. It also renders an `Int32` exit status in decimal, with a proved round trip.
- `Invoker` models `run`:
  - Argument construction is modelled as `StripTargetOption` and `ToolArguments`.
  - The termination switch and module label are modelled as `Classify` and `ModuleLabel`.
  - `Run` is an imperative method. It updates a local copy of the arguments and appends to the process's argument vector, as the source does. It is proved equal to the function `RunResultFor`.
- `Dispatcher` models `performCommand`:
  - Target selection is `SelectTargets` and `TargetsNamed`.
  - `PlanCommand` is the planning loop, with the same `continue` on a skipped target. It is proved against `PlanSteps`.
  - `Execute` runs the steps in order, stopping at the first fault.
  - `PerformCommand` combines the two.

Several things the plugin gets from its host or the operating system are inputs to the model:

- the target names that the argument extractor produces;
- the package's targets, as `Target(name, directory, isSourceModule)`;
- the plugin context: package directory, work directory, and the path of the tool if the host has one;
- the outcome of each launch of the tool. For `PerformCommand` this is a function `launch(k)` giving the outcome of the k-th launch.

A thrown error is a value:

- `context.tool(named:)` throwing becomes `ToolNotFound`.
- The trap of `removeSubrange` when `--target` is the last argument becomes `TargetValueMissing`.
- `process.run()` throwing becomes `ProcessLaunchFailed`.
- A fault ends the command at the step where it happens.

Only the first `--target <name>` pair is removed from the forwarded arguments (lines 44-45). `Invoker.StripForwardsLaterPairs` and `Invoker.SecondTargetForwardedExample` show that a later pair reaches the tool.

Several functions model the source directly. Each one's properties are stated by the members listed with it:

- `Invoker.ModuleLabel` (line 61): `Invoker.ModuleLabelInjective`.
- `Diagnostics.Decimal` (line 74): `Diagnostics.DecimalRoundTrip` and `Diagnostics.DecimalInjective`.
- `Diagnostics.Diagnostic.Message` and `Diagnostics.Diagnostic.Level` (lines 9, 25, 64-75): `Diagnostics.ExitCodeMessageDetermines`, `Diagnostics.RunMessageNamesScope`, `Invoker.ClassifyErrorFree` and `Dispatcher.WarnsExactlyWhenSkipped`.
- `Invoker.RunResultFor` (lines 37-77): `Invoker.RunResultFacts`, and `Invoker.Run` is proved equal to it.
- `Dispatcher.StepsFor` and `Dispatcher.PlanSteps` (lines 18-29): `Dispatcher.StepsForAt`, `Dispatcher.InvocationsAreSourceModules`, `Dispatcher.EverySourceModuleRuns` and `Dispatcher.PackageRunOnlyWithoutTargets`, and `Dispatcher.PlanCommand` is proved to build them.

## Model

| member | source | states |
|---|---|---|
| Invoker.FirstIndex | Plugins/SwiftLintCommandPlugin/SwiftLintCommandPlugin.swift:44 | `firstIndex(of:)`: None exactly when the element is absent, otherwise the index of its first occurrence |
| Invoker.StripTargetOption | Plugins/SwiftLintCommandPlugin/SwiftLintCommandPlugin.swift:43-46 | without `--target` the arguments are unchanged; with its first occurrence at i, the result is `arguments[..i] + arguments[i+2..]` when a value follows, and the trap (TargetValueMissing) when `--target` is last |
| Invoker.StripRemovesOnePair | Plugins/SwiftLintCommandPlugin/SwiftLintCommandPlugin.swift:44-45 | when the first `--target` has a value, exactly two elements go: the length drops by 2 and the multiset of the rest is kept |
| Invoker.StripForwardsLaterPairs | Plugins/SwiftLintCommandPlugin/SwiftLintCommandPlugin.swift:44-45 | only the first pair is removed: `--target` is still in the filtered arguments exactly when it occurs after the removed pair |
| Invoker.ToolArguments | Plugins/SwiftLintCommandPlugin/SwiftLintCommandPlugin.swift:43-55 | fails exactly when stripping fails; otherwise the vector starts with the filtered arguments, ends with the directory, has `--cache-path` and the work directory right after the filtered arguments when `analyze` is not among the original arguments, and has length \|filtered\|+1 with `analyze` and \|filtered\|+3 without |
| Invoker.CachePathOnceUnlessAnalyze | Plugins/SwiftLintCommandPlugin/SwiftLintCommandPlugin.swift:51-54 | for arguments without `--cache-path` (the only ones that reach a run), the tool receives `--cache-path` exactly once, or never when the arguments name `analyze` |
| Invoker.ModuleLabelInjective | Plugins/SwiftLintCommandPlugin/SwiftLintCommandPlugin.swift:61 | the label `module '<name>'` or `package` determines the target name or its absence |
| Invoker.Classify | Plugins/SwiftLintCommandPlugin/SwiftLintCommandPlugin.swift:62-77 | there is one diagnostic for the reason, plus one more exactly when the status is nonzero, and all of them name the label. The reason's diagnostic comes first, and the first is a remark exactly for `.exit`. When the status is nonzero, the second is the exit-code error with that status. The signal error appears exactly for `.uncaughtSignal`, the unexpected-termination error exactly for an unknown reason, and the exit-code error with that status exactly when the status is nonzero |
| Invoker.ClassifyErrorFree | Plugins/SwiftLintCommandPlugin/SwiftLintCommandPlugin.swift:62-77 | a run reports no error if and only if the process exited normally with status 0 |
| Invoker.RunResultFacts | Plugins/SwiftLintCommandPlugin/SwiftLintCommandPlugin.swift:37-77 | a run completes exactly when the tool is found, stripping succeeds and the launch succeeds. A missing tool is the fault exactly when there is no tool. A completed run launched the tool in the package directory with the built argument vector, whose last element is the linted directory, and reports the classification under the run's label |
| Invoker.Run | Plugins/SwiftLintCommandPlugin/SwiftLintCommandPlugin.swift:32-77 | the in-place construction (local copy, two appends, early exits on each throw) yields exactly `RunResultFor` |
| Invoker.LintOneTargetExample | Plugins/SwiftLintCommandPlugin/SwiftLintCommandPlugin.swift:43-55 | `["--target","Foo","lint"]` for `/pkg/Sources/Foo` becomes `["lint","--cache-path",<work dir>,"/pkg/Sources/Foo"]` |
| Invoker.AnalyzeExample | Plugins/SwiftLintCommandPlugin/SwiftLintCommandPlugin.swift:51-55 | `["analyze"]` becomes `["analyze",<dir>]`, with no cache path |
| Invoker.SecondTargetForwardedExample | Plugins/SwiftLintCommandPlugin/SwiftLintCommandPlugin.swift:44-45 | with two `--target` pairs the second pair is forwarded to the tool |
| Invoker.ExitStatusTwoExample | Plugins/SwiftLintCommandPlugin/SwiftLintCommandPlugin.swift:61-77 | a normal exit with status 2 gives the remark and exactly one error, whose text shows "2" and names the module |
| Diagnostics.NatDecimal | Plugins/SwiftLintCommandPlugin/SwiftLintCommandPlugin.swift:74 | the interpolated exit code is a non-empty string of digits with no leading zero |
| Diagnostics.DecimalRoundTrip | Plugins/SwiftLintCommandPlugin/SwiftLintCommandPlugin.swift:74 | the decimal rendering of a status is well formed and reads back as that status |
| Diagnostics.DecimalInjective | Plugins/SwiftLintCommandPlugin/SwiftLintCommandPlugin.swift:74 | different statuses render differently |
| Diagnostics.ExitCodeMessageDetermines | Plugins/SwiftLintCommandPlugin/SwiftLintCommandPlugin.swift:72-75 | the text of the exit-code error determines both the status and the label |
| Diagnostics.RunMessageNamesScope | Plugins/SwiftLintCommandPlugin/SwiftLintCommandPlugin.swift:64-74 | the text of every diagnostic about a run contains the module or package label |
| Dispatcher.FindTarget | Plugins/SwiftLintCommandPlugin/SwiftLintCommandPlugin.swift:17 | finds a target with the given name exactly when one exists, and it is the first target with that name |
| Dispatcher.TargetsNamed | Plugins/SwiftLintCommandPlugin/SwiftLintCommandPlugin.swift:17 | succeeds exactly when every name has a target. It then gives one target per name, in the order of the names, each the first target with that name. Otherwise it fails with a requested name that no target has, at a position where every earlier name resolves |
| Dispatcher.SelectTargets | Plugins/SwiftLintCommandPlugin/SwiftLintCommandPlugin.swift:15-17 | with no names, all of the package's targets; otherwise the named targets, or the unresolved name |
| Dispatcher.PlanCommand | Plugins/SwiftLintCommandPlugin/SwiftLintCommandPlugin.swift:8-29 | rejects exactly when `--cache-path` is an argument, before any target lookup. Otherwise it gives the unresolved name, or the steps `PlanSteps` of the selected targets, built by the loop with its skip-and-continue |
| Dispatcher.StepsForAt | Plugins/SwiftLintCommandPlugin/SwiftLintCommandPlugin.swift:22-29 | one step per selected target, in order: a run in the target's directory under its name for a source module, a skip for any other |
| Dispatcher.InvocationsAreSourceModules | Plugins/SwiftLintCommandPlugin/SwiftLintCommandPlugin.swift:22-29 | the runs planned are exactly those of the source-module targets, in target order |
| Dispatcher.EverySourceModuleRuns | Plugins/SwiftLintCommandPlugin/SwiftLintCommandPlugin.swift:22-29 | every selected source-module target gets its run, whatever comes before it |
| Dispatcher.PackageRunOnlyWithoutTargets | Plugins/SwiftLintCommandPlugin/SwiftLintCommandPlugin.swift:18-21 | with no selected target the plan is exactly one run in `"."` with no label. Otherwise every run belongs to a selected source-module target. The package run occurs if and only if nothing is selected |
| Dispatcher.WarnsExactlyWhenSkipped | Plugins/SwiftLintCommandPlugin/SwiftLintCommandPlugin.swift:24-27 | a step's report carries a warning if and only if the step skips a target |
| Dispatcher.SkippedTargetWarned | Plugins/SwiftLintCommandPlugin/SwiftLintCommandPlugin.swift:24-27 | a reached skip leaves that target's warning among the command's diagnostics |
| Dispatcher.TerminatedRunContinues | Plugins/SwiftLintCommandPlugin/SwiftLintCommandPlugin.swift:58-77 | a process that ran never ends the command, whatever its reason and status; only a missing tool or a trailing `--target` does |
| Dispatcher.Execute | Plugins/SwiftLintCommandPlugin/SwiftLintCommandPlugin.swift:22-29 | reports every step in order while no fault occurs, with each run taking the next launch outcome. It stops at the first step whose run faults and returns that fault, and returns no fault exactly when every step was reported |
| Dispatcher.PerformCommand | Plugins/SwiftLintCommandPlugin/SwiftLintCommandPlugin.swift:6-30 | `--cache-path` gives the rejection and exactly one error. An unresolved name gives that name. Otherwise the steps of the plan are executed in order, as `Execute` states |

## Left out

- Launching and waiting for the process, setting `currentDirectoryURL` and `executableURL`, and looking up the tool (lines 37-41, 58-59) are operating-system I/O. The modelled process is the value `ProcessSpec`, and the launch outcome is an input.
- `ArgumentExtractor.extractOption(named:)` (lines 12-13) belongs to the PackagePlugin library, whose source is not part of this model. The extracted names are an input.
- `context.package.targets` and `targets(named:)` (lines 16-17) are the host's package model. The targets are an input. `TargetsNamed` assumes the host resolves names one by one, taking the first target with each name and failing on the first unknown name.
- Names are compared code point by code point, where Swift's `String ==` compares by canonical equivalence. A host lookup can therefore match a name such as "é" written as `e` followed by a combining accent, and the model does not. The fixed arguments `--target`, `--cache-path` and `analyze` are unaffected.
- `target.sourceModule` is modelled as a flag on the target. The source rebinds the name to the source-module view, which has the same name and directory.
- The `Diagnostics.remark` lines that log arguments, targets and paths (lines 7, 14, 23, 36, 39, 41, 57) and the `print` at line 48 are logging only and are left out.
- A name the host cannot resolve is thrown to the host, which prints it. `Emitted` therefore reports nothing of its own for that outcome.
- Dispatcher.PerformCommand: the interleaving of diagnostics across steps is stated only per step. `Emitted` joins them in step order.
- Diagnostics.ExitCodeMessageDetermines: only the exit-code error is shown to be determined by its text. For the other diagnostics, `RunMessageNamesScope` shows only that their text contains the label.
