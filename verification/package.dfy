/** The Visual Studio package: it looks for the solution's pre- and
    post-build scripts when it is loaded, subscribes to the solution build
    events if it found one, runs the matching script at the beginning and at
    the end of a build, and writes what happened to its output pane.

    Host services are inputs: whether the automation object and the build
    manager could be obtained, the solution's name, the files of the solution
    folder, and the cookie the build manager hands out. */
module Package {
  import opened Formatting
  import opened Scripts
  import opened Executor

  /** What the host offers the package when it is loaded. `files` maps the
      names of the files in the solution folder to their contents. */
  datatype HostEnvironment = HostEnvironment(
    dteAvailable: bool,
    solutionName: string,
    files: map<string, string>,
    buildManagerAvailable: bool,
    cookie: nat)

  /** The line written when the output pane is created (without its newline). */
  const PaneBanner: string := "This is the Created Pane, VisualStudioBuildExtension "

  /** The pane lines of one build-event handler that runs `phase`'s script:
      the run's own lines, then its success value. */
  function PhaseLog(phase: Phase, run: ScriptRun, elapsedSeconds: string): seq<string> {
    RunLog(PhaseLabel(phase), run, elapsedSeconds) + [BoolToString(!run.hadErrors)]
  }

  /** A handler's lines start by naming its own phase, end with "False"
      exactly when the engine reported errors, and in between hold the run's
      lines unchanged. */
  lemma PhaseLogShape(phase: Phase, run: ScriptRun, elapsedSeconds: string)
    ensures var lines := PhaseLog(phase, run, elapsedSeconds);
      && |lines| == |run.outputs| + 4
      && lines[0] == "Starting " + PhaseLabel(phase)
      && lines[..|lines| - 1] == RunLog(PhaseLabel(phase), run, elapsedSeconds)
      && (lines[|lines| - 1] == "False" <==> run.hadErrors)
      && (lines[|lines| - 1] == "True" <==> !run.hadErrors)
  {
    RunLogOrder(PhaseLabel(phase), run, elapsedSeconds);
    var lines := PhaseLog(phase, run, elapsedSeconds);
    assert lines[..|lines| - 1] == RunLog(PhaseLabel(phase), run, elapsedSeconds);
  }

  class BuildExtensionPackage {
    /** The automation object was obtained. */
    var dteObtained: bool
    var hasPrebuild: bool
    var preBuildScript: string
    var hasPostbuild: bool
    var postBuildScript: string
    /** The solution build manager was obtained. */
    var buildManagerObtained: bool
    var updateSolutionEventsCookie: nat
    /** The build manager currently delivers build events to this package. */
    var advised: bool
    /** Cookies handed back to the build manager, in order. */
    var unadvisedCookies: seq<nat>
    var paneCreated: bool
    /** The lines written to the output pane, oldest first. */
    var pane: seq<string>
    /** The commands handed to the PowerShell engine, oldest first. */
    var invoked: seq<string>

    /** No subscription and no pane without a script to run. */
    ghost predicate Valid()
      reads this
    {
      && (hasPrebuild || hasPostbuild ==> dteObtained)
      && (buildManagerObtained ==> hasPrebuild || hasPostbuild)
      && (advised ==> buildManagerObtained)
      && (paneCreated ==> hasPrebuild || hasPostbuild)
    }

    /** The state of a package the host has created but not yet initialised. */
    ghost predicate Unconfigured()
      reads this
    {
      !dteObtained && !hasPrebuild && !hasPostbuild && !buildManagerObtained && !advised && !paneCreated
    }

    constructor ()
      ensures Valid() && Unconfigured()
      ensures preBuildScript == "" && postBuildScript == ""
      ensures updateSolutionEventsCookie == 0 && unadvisedCookies == [] && pane == [] && invoked == []
    {
      dteObtained, hasPrebuild, hasPostbuild := false, false, false;
      preBuildScript, postBuildScript := "", "";
      buildManagerObtained, updateSolutionEventsCookie, advised := false, 0, false;
      unadvisedCookies, paneCreated, pane, invoked := [], false, [], [];
    }

    /** Appends one message to the output pane. */
    method Log(message: string)
      modifies this`pane
      ensures pane == old(pane) + [message]
    {
      pane := pane + [message];
    }

    /** Package initialisation: find the scripts, and subscribe to build
        events and create the pane only if there is one. */
    method Initialize(env: HostEnvironment)
      requires Valid() && Unconfigured()
      modifies this
      ensures Valid()
      ensures dteObtained == env.dteAvailable
      ensures var pre := Discover(env.files, env.solutionName, PreBuild);
        && hasPrebuild == (env.dteAvailable && pre.Some?)
        && preBuildScript == (if hasPrebuild then pre.value else old(preBuildScript))
      ensures var post := Discover(env.files, env.solutionName, PostBuild);
        && hasPostbuild == (env.dteAvailable && post.Some?)
        && postBuildScript == (if hasPostbuild then post.value else old(postBuildScript))
      ensures paneCreated == (hasPrebuild || hasPostbuild)
      ensures buildManagerObtained == (paneCreated && env.buildManagerAvailable)
      ensures advised == buildManagerObtained
      ensures updateSolutionEventsCookie == (if advised then env.cookie else old(updateSolutionEventsCookie))
      ensures pane == old(pane) + (if paneCreated then [PaneBanner] else [])
      ensures unadvisedCookies == old(unadvisedCookies) && invoked == old(invoked)
    {
      dteObtained := env.dteAvailable;
      if !env.dteAvailable {
        return;
      }
      var pre := Discover(env.files, env.solutionName, PreBuild);
      if pre.Some? {
        hasPrebuild := true;
        preBuildScript := pre.value;
      }
      var post := Discover(env.files, env.solutionName, PostBuild);
      if post.Some? {
        hasPostbuild := true;
        postBuildScript := post.value;
      }
      if !hasPostbuild && !hasPrebuild {
        return;
      }
      buildManagerObtained := env.buildManagerAvailable;
      if buildManagerObtained {
        advised := true;
        updateSolutionEventsCookie := env.cookie;
      }
      paneCreated := true;
      Log(PaneBanner);
    }

    /** Teardown: hand the cookie back only if a build manager was obtained. */
    method Dispose()
      requires Valid()
      modifies this`advised, this`unadvisedCookies
      ensures Valid() && !advised
      ensures unadvisedCookies == old(unadvisedCookies) + (if buildManagerObtained then [updateSolutionEventsCookie] else [])
    {
      if buildManagerObtained {
        unadvisedCookies := unadvisedCookies + [updateSolutionEventsCookie];
        advised := false;
      }
    }

    /** Logs each output item of a run, tagged with the run's target, in
        output order. */
    method LogOutputs(target: string, outputs: seq<string>)
      modifies this`pane
      ensures pane == old(pane) + OutputLines(target, outputs)
    {
      for k := 0 to |outputs|
        invariant pane == old(pane) + OutputLines(target, outputs[..k])
      {
        assert OutputLines(target, outputs[..k + 1]) == OutputLines(target, outputs[..k]) + [Tagged(target, outputs[k])];
        Log(Tagged(target, outputs[k]));
      }
      assert outputs[..|outputs|] == outputs;
    }

    /** Hands `script` to the PowerShell engine and runs it under the
        bounded wait. `engine` says what the engine does with a command;
        `elapsedSeconds` is the clock reading printed on the completion line.
        Returns whether the run reported no errors and whether a stop was
        requested. */
    method RunPowershell(target: string, script: string, engine: string -> ScriptRun, elapsedSeconds: string)
      returns (success: bool, stopRequested: bool)
      modifies this`pane, this`invoked
      ensures invoked == old(invoked) + [script]
      ensures success == !engine(script).hadErrors
      ensures stopRequested <==> forall r :: 0 <= r <= MaxPolls ==> !CompletedAtRead(engine(script), r)
      ensures pane == old(pane) + RunLog(target, engine(script), elapsedSeconds)
    {
      Log(StartingLine(target));
      invoked := invoked + [script];
      var run := engine(script);
      var i, sleptMs, checks := Poll(run);
      PollsWaitedUnique(run, i);
      Log(WaitedLine(target, i * PollIntervalMs));
      stopRequested := !CompletedAtRead(run, checks);
      LogOutputs(target, run.outputs);
      AppendRunLog(old(pane), target, run, elapsedSeconds);
      if run.hadErrors {
        Log(ErrorsLine(target));
        return false, stopRequested;
      }
      Log(DoneLine(target, elapsedSeconds));
      success := true;
    }

    /** Beginning of a build: run the pre-build script if there is one.
        Never asks the host to cancel. */
    method UpdateSolutionBegin(cancelUpdate: int, engine: string -> ScriptRun, elapsedSeconds: string)
      returns (status: int, cancelUpdateOut: int)
      modifies this`pane, this`invoked
      ensures status == 0 && cancelUpdateOut == cancelUpdate
      ensures invoked == old(invoked) + (if hasPrebuild then [preBuildScript] else [])
      ensures pane == old(pane) + (if hasPrebuild then PhaseLog(PreBuild, engine(preBuildScript), elapsedSeconds) else [])
    {
      cancelUpdateOut := cancelUpdate;
      if hasPrebuild {
        var success, _ := RunPowershell(PhaseLabel(PreBuild), preBuildScript, engine, elapsedSeconds);
        Log(BoolToString(success));
      }
      return 0, cancelUpdateOut;
    }

    /** End of a build: run the post-build script if there is one. */
    method UpdateSolutionDone(succeeded: int, modified: int, cancelCommand: int, engine: string -> ScriptRun, elapsedSeconds: string)
      returns (status: int)
      modifies this`pane, this`invoked
      ensures status == 0
      ensures invoked == old(invoked) + (if hasPostbuild then [postBuildScript] else [])
      ensures pane == old(pane) + (if hasPostbuild then PhaseLog(PostBuild, engine(postBuildScript), elapsedSeconds) else [])
    {
      if hasPostbuild {
        var success, _ := RunPowershell(PhaseLabel(PostBuild), postBuildScript, engine, elapsedSeconds);
        Log(BoolToString(success));
      }
      return 0;
    }

    /** The remaining build events are acknowledged and change nothing. */
    method UpdateSolutionStartUpdate(cancelUpdate: int) returns (status: int, cancelUpdateOut: int)
      ensures status == 0 && cancelUpdateOut == cancelUpdate
    {
      return 0, cancelUpdate;
    }

    method UpdateSolutionCancel() returns (status: int)
      ensures status == 0
    {
      return 0;
    }

    method OnActiveProjectCfgChange() returns (status: int)
      ensures status == 0
    {
      return 0;
    }
  }

  /** One whole session: the host creates and initialises the package, and,
      while the package is subscribed, signals the beginning and then the end
      of one build; finally it disposes of the package. `preEngine` and
      `postEngine` say what the PowerShell engine does with a command during
      the beginning and during the end of the build. Returns the pane, the
      commands handed to the engine, whether the package was subscribed, and
      the cookies handed back. */
  method BuildSession(env: HostEnvironment, preEngine: string -> ScriptRun, postEngine: string -> ScriptRun,
                      preElapsed: string, postElapsed: string)
    returns (pane: seq<string>, invoked: seq<string>, subscribed: bool, released: seq<nat>)
    ensures var preFile := ScriptFileName(env.solutionName, PreBuild);
      var postFile := ScriptFileName(env.solutionName, PostBuild);
      var hasPre := env.dteAvailable && preFile in env.files;
      var hasPost := env.dteAvailable && postFile in env.files;
      && subscribed == ((hasPre || hasPost) && env.buildManagerAvailable)
      && released == (if subscribed then [env.cookie] else [])
      && invoked == (if subscribed && hasPre then [Wrap(env.files[preFile])] else [])
                    + (if subscribed && hasPost then [Wrap(env.files[postFile])] else [])
      && pane == (if hasPre || hasPost then [PaneBanner] else [])
                 + (if subscribed && hasPre then PhaseLog(PreBuild, preEngine(Wrap(env.files[preFile])), preElapsed) else [])
                 + (if subscribed && hasPost then PhaseLog(PostBuild, postEngine(Wrap(env.files[postFile])), postElapsed) else [])
  {
    ghost var preFile := ScriptFileName(env.solutionName, PreBuild);
    ghost var postFile := ScriptFileName(env.solutionName, PostBuild);
    ghost var hasPre := env.dteAvailable && preFile in env.files;
    ghost var hasPost := env.dteAvailable && postFile in env.files;
    var pkg := new BuildExtensionPackage();
    pkg.Initialize(env);
    assert pkg.hasPrebuild == hasPre && pkg.hasPostbuild == hasPost;
    assert hasPre ==> pkg.preBuildScript == Wrap(env.files[preFile]);
    assert hasPost ==> pkg.postBuildScript == Wrap(env.files[postFile]);
    ghost var banner := if hasPre || hasPost then [PaneBanner] else [];
    assert pkg.pane == banner && pkg.invoked == [];
    subscribed := pkg.advised;
    ghost var preLog := if subscribed && hasPre then PhaseLog(PreBuild, preEngine(pkg.preBuildScript), preElapsed) else [];
    ghost var postLog := if subscribed && hasPost then PhaseLog(PostBuild, postEngine(pkg.postBuildScript), postElapsed) else [];
    ghost var preRun := if subscribed && hasPre then [pkg.preBuildScript] else [];
    ghost var postRun := if subscribed && hasPost then [pkg.postBuildScript] else [];
    if pkg.advised {
      var status, cancel := pkg.UpdateSolutionBegin(0, preEngine, preElapsed);
      assert pkg.pane == banner + preLog && pkg.invoked == preRun;
      status := pkg.UpdateSolutionDone(1, 1, 0, postEngine, postElapsed);
    }
    assert pkg.pane == banner + preLog + postLog;
    assert pkg.invoked == preRun + postRun;
    pkg.Dispose();
    pane, invoked, released := pkg.pane, pkg.invoked, pkg.unadvisedCookies;
  }
}
