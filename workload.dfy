/** Picking the executable to profile out of the build artifacts, and the command that
    runs it. */
module Workload {
  import opened Types

  /** The kinds and the name of the target the options ask for. */
  datatype Selection = Selection(kinds: seq<string>, name: string)

  /** The selector that is set, looked at in the order bin, example, test, bench, named unit test. */
  function Select(opt: Opts): Option<Selection> {
    if opt.bin.Some? then Some(Selection(["bin"], opt.bin.value))
    else if opt.example.Some? then Some(Selection(["example"], opt.example.value))
    else if opt.test.Some? then Some(Selection(["test"], opt.test.value))
    else if opt.bench.Some? then Some(Selection(["bench"], opt.bench.value))
    else if opt.unitTest.Some? && opt.unitTest.value.Some? then Some(Selection(["lib", "bin"], opt.unitTest.value.value))
    else None
  }

  /** `a` is an executable built for the selected target. */
  predicate Matches(a: Artifact, sel: Selection) {
    a.executable.Some? && a.target.name == sel.name && Intersects(a.target.kind, sel.kinds)
  }

  /** The position of the first artifact that matches `sel`. */
  function FindArtifact(artifacts: seq<Artifact>, sel: Selection): (r: Option<nat>)
    ensures r.Some? ==> r.value < |artifacts| && Matches(artifacts[r.value], sel)
    ensures r.Some? ==> forall j :: 0 <= j < r.value ==> !Matches(artifacts[j], sel)
    ensures r.None? ==> forall j :: 0 <= j < |artifacts| ==> !Matches(artifacts[j], sel)
  {
    if artifacts == [] then None
    else if Matches(artifacts[0], sel) then Some(0)
    else match FindArtifact(artifacts[1..], sel)
      case Some(i) => Some(i + 1)
      case None => None
  }

  /** The profile the debug-info advisory names: binaries, examples and unit tests are built
      with the release profile, tests and benchmarks with the bench profile. */
  function AdvisoryProfile(opt: Opts): string {
    if opt.example.Some? || opt.bin.Some? || (opt.unitTest.Some? && opt.unitTest.value.Some?) then "release"
    else "bench"
  }

  /** The (kinds, name) pair of every artifact, reported when the selected one is missing. */
  function KindsAndNames(artifacts: seq<Artifact>): seq<(seq<string>, string)> {
    seq(|artifacts|, i requires 0 <= i < |artifacts| => (artifacts[i].target.kind, artifacts[i].target.name))
  }

  /** The command to profile, and the profile named by the debug-info advisory when one is due. */
  datatype Extracted = Extracted(command: seq<string>, debugAdvisory: Option<string>)

  predicate HasExecutable(artifacts: seq<Artifact>) {
    exists a :: a in artifacts && a.executable.Some?
  }

  /** The command is the first matching executable followed by the trailing arguments. The
      advisory is due when profiling outside the dev profile an artifact without debug info;
      it leaves the command as it is. */
  function ExtractWorkload(opt: Opts, artifacts: seq<Artifact>): (r: Result<Extracted>)
    ensures r == Err(NoExecutable) <==> !HasExecutable(artifacts)
    ensures r == Err(NoTargetForProfiling) <==> HasExecutable(artifacts) && Select(opt).None?
    ensures r.Ok? <==> HasExecutable(artifacts) && Select(opt).Some?
                       && exists i :: 0 <= i < |artifacts| && Matches(artifacts[i], Select(opt).value)
    ensures HasExecutable(artifacts) && Select(opt).Some?
            && (forall i :: 0 <= i < |artifacts| ==> !Matches(artifacts[i], Select(opt).value)) ==>
              r == Err(TargetNotFound(Select(opt).value.kinds, Select(opt).value.name, KindsAndNames(artifacts)))
    ensures r.Ok? ==>
              && |r.value.command| == 1 + |opt.trailingArguments|
              && r.value.command[1..] == opt.trailingArguments
              && exists i :: 0 <= i < |artifacts|
                   && Matches(artifacts[i], Select(opt).value)
                   && (forall j :: 0 <= j < i ==> !Matches(artifacts[j], Select(opt).value))
                   && r.value.command[0] == artifacts[i].executable.value
                   && (r.value.debugAdvisory.Some? <==> !opt.dev && artifacts[i].debuginfo == DebugNone)
                   && (r.value.debugAdvisory.Some? ==> r.value.debugAdvisory.value == AdvisoryProfile(opt))
  {
    if forall a :: a in artifacts ==> a.executable.None? then Err(NoExecutable)
    else match Select(opt)
      case None => Err(NoTargetForProfiling)
      case Some(sel) =>
        match FindArtifact(artifacts, sel)
        case None => Err(TargetNotFound(sel.kinds, sel.name, KindsAndNames(artifacts)))
        case Some(i) =>
          var chosen := artifacts[i];
          var advisory := if !opt.dev && chosen.debuginfo == DebugNone then Some(AdvisoryProfile(opt)) else None;
          Ok(Extracted([chosen.executable.value] + opt.trailingArguments, advisory))
  }

  /** An empty artifact list has no executable in it. */
  lemma NoArtifactsNoExecutable(opt: Opts)
    ensures ExtractWorkload(opt, []) == Err(NoExecutable)
  {
  }

  /** Two artifact lists that differ only in debug info. */
  predicate SameButDebuginfo(xs: seq<Artifact>, ys: seq<Artifact>) {
    |xs| == |ys| &&
    forall i :: 0 <= i < |xs| ==> xs[i].target == ys[i].target && xs[i].executable == ys[i].executable
  }

  lemma {:induction false} FindArtifactIgnoresDebuginfo(xs: seq<Artifact>, ys: seq<Artifact>, sel: Selection)
    requires SameButDebuginfo(xs, ys)
    ensures FindArtifact(xs, sel) == FindArtifact(ys, sel)
  {
    if xs != [] {
      assert SameButDebuginfo(xs[1..], ys[1..]) by {
        forall i | 0 <= i < |xs| - 1
          ensures xs[1..][i].target == ys[1..][i].target && xs[1..][i].executable == ys[1..][i].executable
        {
          assert xs[1..][i] == xs[i + 1] && ys[1..][i] == ys[i + 1];
        }
      }
      FindArtifactIgnoresDebuginfo(xs[1..], ys[1..], sel);
    }
  }

  /** The advisory never changes the outcome: neither the artifacts' debug info nor the dev
      flag affects whether a command is found, or which. */
  lemma AdvisoryDoesNotChangeCommand(opt: Opts, xs: seq<Artifact>, ys: seq<Artifact>, dev: bool)
    requires SameButDebuginfo(xs, ys)
    ensures ExtractWorkload(opt, xs).Ok? <==> ExtractWorkload(opt.(dev := dev), ys).Ok?
    ensures ExtractWorkload(opt, xs).Ok? ==>
              ExtractWorkload(opt, xs).value.command == ExtractWorkload(opt.(dev := dev), ys).value.command
  {
    assert HasExecutable(xs) <==> HasExecutable(ys) by {
      if HasExecutable(xs) {
        var a :| a in xs && a.executable.Some?;
        var i :| 0 <= i < |xs| && xs[i] == a;
        assert ys[i] in ys && ys[i].executable.Some?;
      }
      if HasExecutable(ys) {
        var a :| a in ys && a.executable.Some?;
        var i :| 0 <= i < |ys| && ys[i] == a;
        assert xs[i] in xs && xs[i].executable.Some?;
      }
    }
    assert Select(opt) == Select(opt.(dev := dev));
    if Select(opt).Some? {
      FindArtifactIgnoresDebuginfo(xs, ys, Select(opt).value);
    }
  }

  /** A binary built without debug info: the command is its path, and the advisory names the
      release profile; with full debug info there is no advisory. */
  lemma BinWithoutDebuginfo(opt: Opts, path: string)
    requires opt.bin == Some("x") && !opt.dev && opt.trailingArguments == []
    ensures ExtractWorkload(opt, [Artifact(Target("x", ["bin"]), Some(path), DebugNone)])
            == Ok(Extracted([path], Some("release")))
    ensures ExtractWorkload(opt, [Artifact(Target("x", ["bin"]), Some(path), Full)])
            == Ok(Extracted([path], None))
  {
    assert Intersects(["bin"], ["bin"]) by { assert "bin" in ["bin"]; }
    assert [path] + [] == [path];
  }
}
