# VisualStudioBuildExtension — a Dafny model of its build hooks

VisualStudioBuildExtension is a Visual Studio package. When a solution is
loaded it looks in the solution folder for `<solution>.PreBuild.ps1` and
`<solution>.PostBuild.ps1`. If Visual Studio provides its automation object
and at least one of them exists, the package creates an output pane and, if
Visual Studio also provides a build manager, subscribes to the solution build
events. At the
beginning of a build it runs the pre-build script, and at the end of a build
it runs the post-build script. Each run goes to a PowerShell engine. The
package polls the engine every 100 ms, for at most 150 polls (15 s), and
asks it to stop if the run has not completed by then. Every step, every
output item and the outcome go to the pane. No handler ever asks Visual
Studio to cancel the build.

The model has four modules:

- `Formatting` (formatting.dfy): `Option`, the decimal rendering of the
  waited milliseconds, and the `True`/`False` rendering of a Boolean. Each
  rendering comes with its parser and a round-trip lemma.
- `Scripts` (scripts.dfy): the script file-name convention with its parser,
  the `&{ … } -Verbose -Debug *>&1` wrapping with its unwrapping, and the
  discovery of one phase's script.
- `Executor` (executor.dfy): the PowerShell run as an oracle (`ScriptRun`),
  the bounded poll loop (`Poll`, a method with a `while` loop), and the lines a
  run writes (`RunLog`).
- `Package` (package.dfy): the package as a class. Its fields are the ones
  the source updates: the script flags and texts, the build manager, the
  event cookie and the pane. It has methods for initialisation, teardown, the
  PowerShell run and the five build-event handlers, and `BuildSession`, which
  drives one whole session.

Host services are inputs (`HostEnvironment`):
- whether the automation object (DTE) and the build manager were obtained;
- the solution's name;
- the files of the solution folder, as a map from file name to content;
- the cookie the build manager hands out.

A `ScriptRun` stands for what the engine does with a script:
- after how many completion checks the run is seen as complete (or never);
- its output items;
- its error flag.

The engine is an input function from the command handed to it to the
`ScriptRun` it produces. The package records every command it hands to the
engine (`invoked`), and the handlers' contracts name the run of the command
they hand over.

The pane is a `seq<string>`. The methods only ever append to it.

The code is followed where its surrounding text says otherwise:
- The comment on the poll loop says "5 seconds". The loop allows 150 × 100 ms
  = 15 s, and the model uses 15 s.
- `Dispose` hands the cookie back on every call, as long as a build manager
  was obtained. The model records each of these calls; it does not model a
  single release.
- The pane is created during initialisation, and only when a script exists.
  It is not created when it is first written to.

## Model

| member | source | states |
|---|---|---|
| `Formatting.NatToStringIsDecimal` | VisualStudioBuildExtensionPackage.cs:194 | the waited milliseconds are written as decimal digits, at least one, with no leading zero unless the number is 0 |
| `Formatting.ParseNatToString` | VisualStudioBuildExtensionPackage.cs:194 | reading the rendered number back gives the number, so the wait line carries the exact count |
| `Formatting.NatToStringInjective` | VisualStudioBuildExtensionPackage.cs:194 | different waits are written differently |
| `Formatting.ParseBoolToString` | VisualStudioBuildExtensionPackage.cs:220 | the success value a handler logs parses back to that value, so "True" and "False" tell success and failure apart |
| `Scripts.ParseScriptFileNameRoundTrip` | VisualStudioBuildExtensionPackage.cs:80-87 | `<name>.PreBuild.ps1` / `<name>.PostBuild.ps1` parse back to the solution name and the phase |
| `Scripts.ScriptFileNameInjective` | VisualStudioBuildExtensionPackage.cs:80-87 | no two (solution, phase) pairs share a script file; the pre- and post-build scripts are different files |
| `Scripts.Wrap` | VisualStudioBuildExtensionPackage.cs:85 | the wrapped command holds the script text unchanged between the fixed opening and closing parts |
| `Scripts.UnwrapWrap` | VisualStudioBuildExtensionPackage.cs:85 | unwrapping a wrapped script gives its text back |
| `Scripts.WrapUnwrap` | VisualStudioBuildExtensionPackage.cs:92 | every command framed by the wrapping is the wrapping of the text it frames |
| `Scripts.Discover` | VisualStudioBuildExtensionPackage.cs:80-92 | a phase's script is found exactly when the file with that phase's name exists |
| `Scripts.DiscoverFramesFileText` | VisualStudioBuildExtensionPackage.cs:81-92 | a found script is the file's whole text, wrapped |
| `Executor.PollsWaited` | VisualStudioBuildExtensionPackage.cs:181-193 | the wait ends with a counter of at most 150 |
| `Executor.PollsWaitedUnique` | VisualStudioBuildExtensionPackage.cs:182-193 | "no check before i saw completion, and check i did if i < 150" fixes the counter i: it is the first completing check, or 150 |
| `Executor.Poll` | VisualStudioBuildExtensionPackage.cs:181-193 | the loop ends with 0 ≤ i ≤ 150. Checks 0..i-1 saw no completion. If i < 150, check i saw completion and the loop slept (i+1)·100 ms, 100 ms more than the logged i·100. Otherwise it slept 15000 ms |
| `Executor.RunLogOrder` | VisualStudioBuildExtensionPackage.cs:173-208 | a run writes, in order: "Starting X", "[X] waited N ms …", one "[X] <output>" per output item in output order, then "[X] errors occurred" or "Done X, … seconds" |
| `Executor.WaitedMsWithinCeiling` | VisualStudioBuildExtensionPackage.cs:194 | the wait line shows i·100 exactly, and that is never more than 15000 ms |
| `Executor.DoneLoggedIffNoErrors` | VisualStudioBuildExtensionPackage.cs:205-208 | the "Done" line appears among a run's lines iff the engine reported no errors |
| `Package.PhaseLogShape` | VisualStudioBuildExtensionPackage.cs:217-232 | a handler's lines start with its own phase's "Starting" line and end with "False" iff the engine reported errors ("True" otherwise) |
| `Package.BuildExtensionPackage.constructor` | VisualStudioBuildExtensionPackage.cs:39-55 | a new package has no scripts, no build manager, no subscription, an empty pane and no engine calls |
| `Package.BuildExtensionPackage.Log` | VisualStudioBuildExtensionPackage.cs:131-147 | writing a message appends exactly that message to the pane |
| `Package.BuildExtensionPackage.Initialize` | VisualStudioBuildExtensionPackage.cs:66-109 | without DTE nothing is set. Otherwise each flag is set iff its file exists, and the script is that file's wrapped text. With neither script there is no build manager, no subscription and no pane. Otherwise it subscribes iff a build manager was obtained (keeping its cookie), and writes the pane's banner |
| `Package.BuildExtensionPackage.Dispose` | VisualStudioBuildExtensionPackage.cs:149-157 | the cookie is handed back iff a build manager was obtained; afterwards no events are delivered |
| `Package.BuildExtensionPackage.LogOutputs` | VisualStudioBuildExtensionPackage.cs:200-203 | one tagged line per output item is appended, in output order |
| `Package.BuildExtensionPackage.RunPowershell` | VisualStudioBuildExtensionPackage.cs:163-212 | hands exactly `script` to the engine. Returns false iff the engine's run of `script` reported errors. Stop is requested iff none of the 151 completion checks saw that run complete, so a completed run is never stopped. The pane gains exactly that run's lines |
| `Package.BuildExtensionPackage.UpdateSolutionBegin` | VisualStudioBuildExtensionPackage.cs:214-223 | returns 0 and leaves the cancel flag alone. Iff a pre-build script exists, it hands the stored pre-build command to the engine and writes the "PreBuild" lines of the engine's run of that command, then its success. Otherwise it runs and writes nothing |
| `Package.BuildExtensionPackage.UpdateSolutionDone` | VisualStudioBuildExtensionPackage.cs:225-234 | returns 0. Iff a post-build script exists, it hands the stored post-build command to the engine and writes the "PostBuild" lines of the engine's run of that command, then its success. Otherwise it runs and writes nothing |
| `Package.BuildExtensionPackage.UpdateSolutionStartUpdate` | VisualStudioBuildExtensionPackage.cs:236-239 | returns 0, leaves the cancel flag alone, changes nothing |
| `Package.BuildExtensionPackage.UpdateSolutionCancel` | VisualStudioBuildExtensionPackage.cs:241-244 | returns 0, changes nothing |
| `Package.BuildExtensionPackage.OnActiveProjectCfgChange` | VisualStudioBuildExtensionPackage.cs:246-249 | returns 0, changes nothing |
| `Package.BuildSession` | VisualStudioBuildExtensionPackage.cs:66-157 | over a whole session: with neither script there is no subscription, no engine call, no cookie handed back and an empty pane. Otherwise the package subscribes iff a build manager exists. When subscribed, the engine receives the wrapped text of `<solution>.PreBuild.ps1`, then that of `<solution>.PostBuild.ps1`, each only if the file exists. The pane holds the banner, then the lines of the engine's run of the pre-build file, then those of the post-build file. The one cookie is handed back at teardown |

## Left out

- Visual Studio plumbing is left out: `GetServiceAsync`/`GetService`, the `DTE2` object, switching to the main thread, and `ThrowIfNotOnUIThread`. Whether DTE and the build manager were obtained are Boolean inputs.
- The path library is left out. The solution's folder and name (`GetDirectoryName`, `GetFileNameWithoutExtension`) are inputs, and `Path.Combine` is not modelled: files are looked up by name within the solution folder. The map's keys stand for the names `File.Exists` accepts. On Windows that lookup ignores case, and the model's exact string match does not.
- Only the banner line of the output pane is modelled. Creating the pane (its GUID, title, visibility and clearing policy) and looking it up are not.
- Pane entries are the messages only. The `DateTime.Now` prefix and the trailing newline that `log` adds are dropped.
- The PowerShell engine is an oracle: a function from the command to its `ScriptRun`. `AddScript`, `BeginInvoke` and `EndInvoke` are not modelled beyond it. Output items are taken as their `ToString()` text.
- Package.BuildExtensionPackage.RunPowershell: Stop is a returned flag. Whether the engine honours it, and which output it then returns, is not modelled.
- Package.BuildExtensionPackage.RunPowershell: the oracle describes only runs whose `EndInvoke` (VisualStudioBuildExtensionPackage.cs:198) returns normally. `EndInvoke` can throw instead. After `Stop()` it may throw `PipelineStoppedException`. When the script raises a terminating error (a `throw`, or `-ErrorAction Stop`), `EndInvoke` rethrows it. In both cases nothing after :198 runs: no output line, no "errors occurred" line, no Done line, and no success value is returned. The pane contracts of `RunPowershell` do not hold for such runs, and the model does not cover them.
- Package.BuildExtensionPackage.UpdateSolutionBegin: when the pre-build run's `EndInvoke` throws (see above), the exception leaves the handler at VisualStudioBuildExtensionPackage.cs:219. Nothing is logged after the wait line and 0 is not returned. The contracts (`status == 0`, the "True"/"False" line) describe only runs whose `EndInvoke` returns.
- Package.BuildExtensionPackage.UpdateSolutionDone: the same holds for the post-build run at VisualStudioBuildExtensionPackage.cs:230.
- Package.BuildSession: likewise, the session contract describes only sessions in which every `EndInvoke` returns normally.
- Real time is left out. `Thread.Sleep(100)` only adds 100 to a counter of milliseconds slept. `elapsed.TotalSeconds` is a floating-point clock reading, passed in as the text the Done line prints. So the timing properties of a real run (elapsed below the ceiling, overshoot within one poll) are not stated.
- Concurrency is left out. The model cannot express events that arrive while `InitializeAsync` is still running, or a `log` call made before the pane exists (that would throw).
- Package.BuildExtensionPackage.Initialize: requires the freshly constructed state, since the host initialises a package once. A second initialisation is not modelled.
- Package.BuildSession: the host delivers exactly one begin and one done event, and only while the package is subscribed. Longer event sequences are not modelled.
- The unused handler parameters are dropped: `IVsHierarchy` of `OnActiveProjectCfgChange`. The `pfCancelUpdate` reference is kept only to show that it is never written.
- `Debug.WriteLine` and `Trace` diagnostics, the registration attributes, the GUID constants, `base.Dispose`, and the empty `OutputCommandHandler` are left out. None of them has behaviour the model could state.
