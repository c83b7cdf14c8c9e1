/** The top level of `cargo heaptrack`: fill in the target when the options leave it open,
    build, pick the executable, and run it under heaptrack. */
module Dispatch {
  import opened Types
  import opened Build
  import opened Workload
  import opened Resolve
  import opened Heaptrack

  /** The options after the target has been filled in, the kinds of the resolved target
      (empty when nothing was resolved), and whether the resolver announced its choice. */
  datatype Dispatched = Dispatched(opt: Opts, kind: seq<string>, notice: bool)

  /** Without any selector the resolver picks the one binary; for a unit test it picks the
      one binary or library, filtered by the name given, if any; otherwise the options are
      used as they are. */
  function Dispatch(opt: Opts, cwd: Path, fileExists: Path -> bool, metadata: Option<seq<Package>>): Result<Dispatched> {
    if NoSelector(opt) then
      match Resolution(["bin"], opt.package, opt.manifestPath, None, cwd, fileExists, metadata)
      case Err(e) => Err(e)
      case Ok(res) =>
        Ok(Dispatched(opt.(bin := Some(res.target.target), package := Some(res.target.package)),
                      res.target.kind, res.notice))
    else if opt.unitTest.Some? then
      match Resolution(["bin", "lib"], opt.package, opt.manifestPath, opt.unitTest.value, cwd, fileExists, metadata)
      case Err(e) => Err(e)
      case Ok(res) =>
        Ok(Dispatched(opt.(unitTest := Some(Some(res.target.target)), package := Some(res.target.package)),
                      res.target.kind, res.notice))
    else Ok(Dispatched(opt, [], false))
  }

  /** Writes the resolved target back into the options, field by field. */
  method ResolveSelection(opt: Opts, cwd: Path, fileExists: Path -> bool, metadata: Option<seq<Package>>)
    returns (r: Result<Dispatched>)
    ensures r == Dispatch(opt, cwd, fileExists, metadata)
  {
    var current := opt;
    var kind: seq<string> := [];
    var notice := false;
    if NoSelector(current) {
      var found := FindUniqueTarget(["bin"], current.package, current.manifestPath, None, cwd, fileExists, metadata);
      if found.Err? {
        return Err(found.error);
      }
      var target := found.value.target;
      current := current.(bin := Some(target.target));
      current := current.(package := Some(target.package));
      kind := target.kind;
      notice := found.value.notice;
    } else if current.unitTest.Some? {
      var found := FindUniqueTarget(["bin", "lib"], current.package, current.manifestPath, current.unitTest.value,
                                    cwd, fileExists, metadata);
      if found.Err? {
        return Err(found.error);
      }
      var target := found.value.target;
      current := current.(unitTest := Some(Some(target.target)));
      current := current.(package := Some(target.package));
      kind := target.kind;
      notice := found.value.notice;
    }
    r := Ok(Dispatched(current, kind, notice));
  }

  /** After dispatch some selector names a target, so the extractor's "no target" failure
      cannot happen, and the options still pass the one-selector rule. */
  lemma DispatchSelectsTarget(opt: Opts, cwd: Path, fileExists: Path -> bool, metadata: Option<seq<Package>>)
    requires AtMostOneSelector(opt)
    ensures var r := Dispatch(opt, cwd, fileExists, metadata);
      r.Ok? ==> Select(r.value.opt).Some? && AtMostOneSelector(r.value.opt)
  {
  }

  /** With no selector, dispatch is the resolution over binaries with no name filter: the
      options gain the resolved binary and its package and nothing else. */
  lemma DispatchWithoutSelector(opt: Opts, cwd: Path, fileExists: Path -> bool, metadata: Option<seq<Package>>)
    requires NoSelector(opt)
    ensures var res := Resolution(["bin"], opt.package, opt.manifestPath, None, cwd, fileExists, metadata);
      var r := Dispatch(opt, cwd, fileExists, metadata);
      && (r.Ok? <==> res.Ok?)
      && (r.Err? ==> r.error == res.error)
      && (r.Ok? ==>
            && Select(r.value.opt) == Some(Selection(["bin"], res.value.target.target))
            && r.value.opt.package == Some(res.value.target.package)
            && r.value.opt.(bin := None, package := opt.package) == opt
            && r.value.kind == res.value.target.kind
            && r.value.notice == res.value.notice)
  {
  }

  /** With a unit test asked for, dispatch is the resolution over binaries and libraries
      filtered by the name given: the options gain the resolved name and its package. */
  lemma DispatchUnitTest(opt: Opts, cwd: Path, fileExists: Path -> bool, metadata: Option<seq<Package>>)
    requires AtMostOneSelector(opt) && opt.unitTest.Some?
    ensures var res := Resolution(["bin", "lib"], opt.package, opt.manifestPath, opt.unitTest.value,
                                  cwd, fileExists, metadata);
      var r := Dispatch(opt, cwd, fileExists, metadata);
      && (r.Ok? <==> res.Ok?)
      && (r.Err? ==> r.error == res.error)
      && (r.Ok? ==>
            && Select(r.value.opt) == Some(Selection(["lib", "bin"], res.value.target.target))
            && r.value.opt.package == Some(res.value.target.package)
            && r.value.opt.(unitTest := opt.unitTest, package := opt.package) == opt
            && r.value.kind == res.value.target.kind
            && r.value.notice == res.value.notice)
  {
  }

  /** The build asks for exactly the target the resolver chose: `--lib` when it is a library,
      `--bin <name>` otherwise, always in the resolved package. */
  lemma BuildRequestsResolvedTarget(opt: Opts, cwd: Path, fileExists: Path -> bool, metadata: Option<seq<Package>>)
    requires AtMostOneSelector(opt) && (NoSelector(opt) || opt.unitTest.Some?)
    requires Dispatch(opt, cwd, fileExists, metadata).Ok?
    ensures var d := Dispatch(opt, cwd, fileExists, metadata).value;
      var request := DecodeBuild(BuildCommand(d.opt, d.kind));
      && request.Some?
      && Select(d.opt).Some?
      && request.value.targets.package == d.opt.package
      && (request.value.targets.lib <==> opt.unitTest.Some? && "lib" in d.kind)
      && (!request.value.targets.lib ==> request.value.targets.bin == Some(Select(d.opt).value.name))
  {
    var d := Dispatch(opt, cwd, fileExists, metadata).value;
    BuildCommandDecodes(d.opt, d.kind);
  }

  // ---------------------------------------------------------------------------------
  // The whole invocation

  /** What one invocation does: the cargo command it runs (when it gets that far), the
      heaptrack command it runs (likewise), and how it ends. */
  datatype Run = Run(buildArgv: Option<seq<string>>, heaptrackArgv: Option<seq<string>>, outcome: Result<()>)

  /** The invocation, given the file system, the metadata, and how the two subprocesses end:
      `buildSucceeded` and `buildOutput` stand for cargo's exit status and message stream,
      `heaptrackSucceeded` for heaptrack's exit status. */
  function Invocation(opt: Opts, cwd: Path, fileExists: Path -> bool, metadata: Option<seq<Package>>,
                      buildSucceeded: bool, buildOutput: seq<Message>, heaptrackSucceeded: bool): Run
  {
    match Dispatch(opt, cwd, fileExists, metadata)
    case Err(e) => Run(None, None, Err(e))
    case Ok(d) =>
      var buildArgv := Some(BuildCommand(d.opt, d.kind));
      var artifacts := if buildSucceeded then CompilerArtifacts(buildOutput) else Err(BuildFailed);
      match artifacts
      case Err(e) => Run(buildArgv, None, Err(e))
      case Ok(arts) =>
        var (heaptrackArgv, outcome) := Profile(d.opt, arts, heaptrackSucceeded);
        Run(buildArgv, heaptrackArgv, outcome)
  }

  /** From the artifacts on: the heaptrack command, when a workload was found, and the outcome. */
  function Profile(opt: Opts, artifacts: seq<Artifact>, heaptrackSucceeded: bool): (Option<seq<string>>, Result<()>) {
    match ExtractWorkload(opt, artifacts)
    case Err(e) => (None, Err(e))
    case Ok(w) =>
      (Some(HeaptrackCommand(opt.heaptrack, w.command[0], w.command[1..])),
       if heaptrackSucceeded then Ok(()) else Err(HeaptrackFailed))
  }

  /** Extracts the workload, splits off its first element as the program and hands the rest
      to heaptrack as that program's arguments. */
  method ProfileWorkload(opt: Opts, artifacts: seq<Artifact>, heaptrackSucceeded: bool)
    returns (heaptrackArgv: Option<seq<string>>, r: Result<()>)
    ensures (heaptrackArgv, r) == Profile(opt, artifacts, heaptrackSucceeded)
  {
    var workload := ExtractWorkload(opt, artifacts);
    if workload.Err? {
      return None, Err(workload.error);
    }
    var command := workload.value.command;
    var target := command[0];
    var rest := command[1..];
    var argv;
    argv, r := RunHeaptrack(target, rest, opt.heaptrack, heaptrackSucceeded);
    heaptrackArgv := Some(argv);
  }

  /** Resolve, build, extract the workload, split off the executable, run heaptrack. */
  method CargoHeaptrack(opt: Opts, cwd: Path, fileExists: Path -> bool, metadata: Option<seq<Package>>,
                        buildSucceeded: bool, buildOutput: seq<Message>, heaptrackSucceeded: bool)
    returns (buildArgv: Option<seq<string>>, heaptrackArgv: Option<seq<string>>, r: Result<()>)
    ensures Run(buildArgv, heaptrackArgv, r)
            == Invocation(opt, cwd, fileExists, metadata, buildSucceeded, buildOutput, heaptrackSucceeded)
  {
    var dispatched := ResolveSelection(opt, cwd, fileExists, metadata);
    if dispatched.Err? {
      return None, None, Err(dispatched.error);
    }
    var d := dispatched.value;
    var args, artifacts := Build.Build(d.opt, d.kind, buildSucceeded, buildOutput);
    buildArgv := Some(args);
    if artifacts.Err? {
      return buildArgv, None, Err(artifacts.error);
    }
    heaptrackArgv, r := ProfileWorkload(d.opt, artifacts.value, heaptrackSucceeded);
  }

  /** No invocation that passes the one-selector rule ends with "no target to profile". */
  lemma NeverWithoutTarget(opt: Opts, cwd: Path, fileExists: Path -> bool, metadata: Option<seq<Package>>,
                           buildSucceeded: bool, buildOutput: seq<Message>, heaptrackSucceeded: bool)
    requires AtMostOneSelector(opt)
    ensures Invocation(opt, cwd, fileExists, metadata, buildSucceeded, buildOutput, heaptrackSucceeded).outcome
            != Err(NoTargetForProfiling)
  {
    DispatchSelectsTarget(opt, cwd, fileExists, metadata);
  }

  /** heaptrack runs only after a successful build whose output parsed, on an executable
      the build produced, with the user's heaptrack options and trailing arguments unchanged;
      the invocation succeeds exactly when heaptrack ran and succeeded. */
  lemma HeaptrackRunsBuiltExecutable(opt: Opts, cwd: Path, fileExists: Path -> bool, metadata: Option<seq<Package>>,
                                     buildSucceeded: bool, buildOutput: seq<Message>, heaptrackSucceeded: bool)
    ensures var run := Invocation(opt, cwd, fileExists, metadata, buildSucceeded, buildOutput, heaptrackSucceeded);
      && (run.outcome.Ok? <==> run.heaptrackArgv.Some? && heaptrackSucceeded)
      && (run.heaptrackArgv.Some? ==>
            && run.buildArgv.Some?
            && buildSucceeded
            && CompilerArtifacts(buildOutput).Ok?
            && exists a :: a in CompilerArtifacts(buildOutput).value && a.executable.Some?
                 && run.heaptrackArgv.value == HeaptrackCommand(opt.heaptrack, a.executable.value, opt.trailingArguments))
  {
    var run := Invocation(opt, cwd, fileExists, metadata, buildSucceeded, buildOutput, heaptrackSucceeded);
    if Dispatch(opt, cwd, fileExists, metadata).Ok? && buildSucceeded && CompilerArtifacts(buildOutput).Ok? {
      var d := Dispatch(opt, cwd, fileExists, metadata).value;
      ProfileRunsArtifact(d.opt, CompilerArtifacts(buildOutput).value, heaptrackSucceeded);
    }
  }

  /** heaptrack is given the executable of one of the artifacts, followed by the trailing
      arguments, and the outcome is heaptrack's. */
  lemma ProfileRunsArtifact(opt: Opts, artifacts: seq<Artifact>, heaptrackSucceeded: bool)
    ensures var (heaptrackArgv, outcome) := Profile(opt, artifacts, heaptrackSucceeded);
      && (outcome.Ok? <==> heaptrackArgv.Some? && heaptrackSucceeded)
      && (heaptrackArgv.Some? ==>
            exists a :: a in artifacts && a.executable.Some?
              && heaptrackArgv.value == HeaptrackCommand(opt.heaptrack, a.executable.value, opt.trailingArguments))
  {
    if ExtractWorkload(opt, artifacts).Ok? {
      var w := ExtractWorkload(opt, artifacts).value;
      var i :| 0 <= i < |artifacts| && Matches(artifacts[i], Select(opt).value)
               && w.command[0] == artifacts[i].executable.value;
      assert artifacts[i] in artifacts;
    }
  }
}
