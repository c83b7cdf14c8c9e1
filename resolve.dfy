/** Choosing the target to profile when the options do not name one: find the crate
    root, scope the workspace's packages, keep the targets that pass the filters, and
    accept the result only when exactly one target is left. */
module Resolve {
  import opened Types

  // ---------------------------------------------------------------------------------
  // The crate root

  /** The nearest of `dir` and its ancestors that holds a manifest file. */
  function NearestManifestDir(dir: Path, fileExists: Path -> bool): (r: Option<Path>)
    ensures r.Some? ==> |r.value| <= |dir| && r.value == dir[..|r.value|] && fileExists(r.value + [ManifestName])
    ensures r.Some? ==> forall k :: |r.value| < k <= |dir| ==> !fileExists(dir[..k] + [ManifestName])
    ensures r.None? ==> forall k :: 0 <= k <= |dir| ==> !fileExists(dir[..k] + [ManifestName])
    decreases |dir|
  {
    if fileExists(dir + [ManifestName]) then
      assert dir[..|dir|] == dir;
      Some(dir)
    else if dir == [] then
      assert dir[..0] == dir;
      None
    else
      var parent := dir[..|dir| - 1];
      assert forall k :: 0 <= k <= |parent| ==> parent[..k] == dir[..k];
      assert dir[..|dir|] == dir;
      NearestManifestDir(parent, fileExists)
  }

  /** The crate root: the directory of an explicit manifest, or else the nearest ancestor
      of the working directory that holds a manifest. */
  function CrateRoot(manifestPath: Option<Path>, cwd: Path, fileExists: Path -> bool): Result<Path> {
    match manifestPath
    case Some(path) => if path == [] then Err(ManifestHasNoParent(path)) else Ok(path[..|path| - 1])
    case None =>
      match NearestManifestDir(cwd, fileExists)
      case Some(dir) => Ok(dir)
      case None => Err(ManifestNotFound(cwd))
  }

  /** Walks the ancestors of the working directory, the working directory first, and stops
      at the first one that holds a manifest. */
  method FindCrateRoot(manifestPath: Option<Path>, cwd: Path, fileExists: Path -> bool) returns (r: Result<Path>)
    ensures r == CrateRoot(manifestPath, cwd, fileExists)
  {
    if manifestPath.Some? {
      var path := manifestPath.value;
      if path == [] {
        return Err(ManifestHasNoParent(path));
      }
      return Ok(path[..|path| - 1]);
    }
    var k := |cwd| + 1;
    while k > 0
      invariant 0 <= k <= |cwd| + 1
      invariant forall j :: k <= j <= |cwd| ==> !fileExists(cwd[..j] + [ManifestName])
      decreases k
    {
      k := k - 1;
      var current := cwd[..k];
      if fileExists(current + [ManifestName]) {
        return Ok(current);
      }
    }
    return Err(ManifestNotFound(cwd));
  }

  // ---------------------------------------------------------------------------------
  // Scoping and filtering

  /** A named package is looked up by name; otherwise every package under the crate root. */
  predicate InScope(p: Package, pkg: Option<string>, root: Path) {
    match pkg
    case Some(name) => p.name == name
    case None => root <= p.manifestPath
  }

  /** The packages in scope, in the order the metadata lists them. */
  function Scope(packages: seq<Package>, pkg: Option<string>, root: Path): (s: seq<Package>)
    ensures forall p :: p in s <==> p in packages && InScope(p, pkg, root)
    ensures |s| <= |packages|
  {
    if packages == [] then []
    else (if InScope(packages[0], pkg, root) then [packages[0]] else []) + Scope(packages[1..], pkg, root)
  }

  /** A target survives when one of its kinds is asked for, when it is its package's
      `default-run` target if the package names one, and when it has the name asked for
      if one is given. */
  predicate Keep(p: Package, t: Target, kind: seq<string>, targetName: Option<string>) {
    && Intersects(t.kind, kind)
    && (p.defaultRun.None? || p.defaultRun.value == t.name)
    && (targetName.None? || targetName.value == t.name)
  }

  function Candidate(p: Package, t: Target): BinaryTarget {
    BinaryTarget(p.name, t.name, t.kind)
  }

  /** The surviving targets among `targets`, all of package `p`, in order. */
  function PackageSurvivors(p: Package, targets: seq<Target>, kind: seq<string>, targetName: Option<string>): seq<BinaryTarget> {
    if targets == [] then []
    else
      var t := targets[|targets| - 1];
      PackageSurvivors(p, targets[..|targets| - 1], kind, targetName)
      + (if Keep(p, t, kind, targetName) then [Candidate(p, t)] else [])
  }

  /** The surviving targets of all packages in `scope`, package by package. */
  function Survivors(scope: seq<Package>, kind: seq<string>, targetName: Option<string>): seq<BinaryTarget> {
    if scope == [] then []
    else
      var p := scope[|scope| - 1];
      Survivors(scope[..|scope| - 1], kind, targetName) + PackageSurvivors(p, p.targets, kind, targetName)
  }

  /** The notice that a target was chosen automatically is left out only when exactly one
      package is in scope and it names a `default-run` target. */
  function Notice(scope: seq<Package>): bool {
    !(|scope| == 1 && scope[0].defaultRun.Some?)
  }

  /** The target chosen and whether the automatic-selection notice is printed. */
  datatype Resolved = Resolved(target: BinaryTarget, notice: bool)

  /** What `find_unique_target` answers, `metadata` being `None` when the metadata query fails. */
  function Resolution(kind: seq<string>, pkg: Option<string>, manifestPath: Option<Path>, targetName: Option<string>,
                      cwd: Path, fileExists: Path -> bool, metadata: Option<seq<Package>>): Result<Resolved>
  {
    match CrateRoot(manifestPath, cwd, fileExists)
    case Err(e) => Err(e)
    case Ok(root) =>
      match metadata
      case None => Err(MetadataUnavailable)
      case Some(packages) =>
        var scope := Scope(packages, pkg, root);
        if scope == [] then
          Err(if pkg.Some? then NoPackageNamed(pkg.value) else NoPackageBelow(root))
        else
          var survivors := Survivors(scope, kind, targetName);
          if |survivors| == 1 then Ok(Resolved(survivors[0], Notice(scope)))
          else if survivors == [] then Err(NoSelectableTarget)
          else Err(SeveralTargets(survivors))
  }

  /** Goes through the packages in scope, counting them and noting whether one names a
      `default-run` target, and collects the targets that pass the filters. */
  method CollectTargets(packages: seq<Package>, kind: seq<string>, targetName: Option<string>)
    returns (targets: seq<BinaryTarget>, numPackages: nat, isDefault: bool)
    ensures targets == Survivors(packages, kind, targetName)
    ensures numPackages == |packages|
    ensures isDefault <==> exists j :: 0 <= j < |packages| && packages[j].defaultRun.Some?
  {
    numPackages := 0;
    isDefault := false;
    targets := [];
    while numPackages < |packages|
      invariant 0 <= numPackages <= |packages|
      invariant isDefault <==> exists j :: 0 <= j < numPackages && packages[j].defaultRun.Some?
      invariant targets == Survivors(packages[..numPackages], kind, targetName)
    {
      var p := packages[numPackages];
      if p.defaultRun.Some? {
        isDefault := true;
      }
      var i := 0;
      var kept: seq<BinaryTarget> := [];
      while i < |p.targets|
        invariant 0 <= i <= |p.targets|
        invariant kept == PackageSurvivors(p, p.targets[..i], kind, targetName)
      {
        var t := p.targets[i];
        if Keep(p, t, kind, targetName) {
          kept := kept + [Candidate(p, t)];
        }
        assert p.targets[..i + 1][..i] == p.targets[..i];
        i := i + 1;
      }
      assert p.targets[..i] == p.targets;
      targets := targets + kept;
      assert packages[..numPackages + 1][..numPackages] == packages[..numPackages];
      numPackages := numPackages + 1;
    }
    assert packages[..numPackages] == packages;
  }

  /** Runs the resolution: finds the crate root, scopes the packages, collects the
      survivors and classifies them. */
  method FindUniqueTarget(kind: seq<string>, pkg: Option<string>, manifestPath: Option<Path>, targetName: Option<string>,
                          cwd: Path, fileExists: Path -> bool, metadata: Option<seq<Package>>)
    returns (r: Result<Resolved>)
    ensures r == Resolution(kind, pkg, manifestPath, targetName, cwd, fileExists, metadata)
  {
    var root := FindCrateRoot(manifestPath, cwd, fileExists);
    if root.Err? {
      return Err(root.error);
    }
    if metadata.None? {
      return Err(MetadataUnavailable);
    }
    var packages := Scope(metadata.value, pkg, root.value);
    if packages == [] {
      if pkg.Some? {
        return Err(NoPackageNamed(pkg.value));
      }
      return Err(NoPackageBelow(root.value));
    }

    var targets, numPackages, isDefault := CollectTargets(packages, kind, targetName);
    assert numPackages == 1 ==> (isDefault <==> packages[0].defaultRun.Some?);
    if |targets| == 1 {
      var target := targets[0];
      return Ok(Resolved(target, numPackages != 1 || !isDefault));
    } else if targets == [] {
      return Err(NoSelectableTarget);
    } else {
      return Err(SeveralTargets(targets));
    }
  }

  // ---------------------------------------------------------------------------------
  // What the resolution means

  lemma {:induction false} PackageSurvivorsSpec(p: Package, targets: seq<Target>, kind: seq<string>,
                                                targetName: Option<string>, b: BinaryTarget)
    ensures b in PackageSurvivors(p, targets, kind, targetName) <==>
              exists t :: t in targets && Keep(p, t, kind, targetName) && b == Candidate(p, t)
  {
    if targets != [] {
      var init, t := targets[..|targets| - 1], targets[|targets| - 1];
      PackageSurvivorsSpec(p, init, kind, targetName, b);
      assert targets == init + [t];
    }
  }

  /** `b` is a target of a package in scope that passes every filter. */
  predicate IsCandidate(scope: seq<Package>, kind: seq<string>, targetName: Option<string>, b: BinaryTarget) {
    exists p, t :: p in scope && t in p.targets && Keep(p, t, kind, targetName) && b == Candidate(p, t)
  }

  /** A target survives exactly when it is a target of a package in scope and passes the
      kind, `default-run` and name filters. */
  lemma {:induction false} SurvivorsSpec(scope: seq<Package>, kind: seq<string>, targetName: Option<string>, b: BinaryTarget)
    ensures b in Survivors(scope, kind, targetName) <==> IsCandidate(scope, kind, targetName, b)
  {
    if scope != [] {
      var init, p := scope[..|scope| - 1], scope[|scope| - 1];
      SurvivorsSpec(init, kind, targetName, b);
      PackageSurvivorsSpec(p, p.targets, kind, targetName, b);
      assert scope == init + [p];
    }
  }

  /** No target survives exactly when no target of a package in scope passes the filters. */
  lemma NoSurvivors(scope: seq<Package>, kind: seq<string>, targetName: Option<string>)
    ensures Survivors(scope, kind, targetName) == [] <==>
              forall p, t :: p in scope && t in p.targets ==> !Keep(p, t, kind, targetName)
  {
    var survivors := Survivors(scope, kind, targetName);
    if survivors != [] {
      SurvivorsSpec(scope, kind, targetName, survivors[0]);
    }
    if exists p, t :: p in scope && t in p.targets && Keep(p, t, kind, targetName) {
      var p, t :| p in scope && t in p.targets && Keep(p, t, kind, targetName);
      SurvivorsSpec(scope, kind, targetName, Candidate(p, t));
    }
  }

  /** On success the chosen target is a target of a package in scope that passes every
      filter, every such target is the chosen one, and the notice is left out exactly when
      a single package is in scope and it names a `default-run` target. */
  lemma ResolvedIsTheOnlyCandidate(kind: seq<string>, pkg: Option<string>, manifestPath: Option<Path>,
                                   targetName: Option<string>, cwd: Path, fileExists: Path -> bool,
                                   packages: seq<Package>, res: Resolved)
    requires Resolution(kind, pkg, manifestPath, targetName, cwd, fileExists, Some(packages)) == Ok(res)
    ensures CrateRoot(manifestPath, cwd, fileExists).Ok?
    ensures var scope := Scope(packages, pkg, CrateRoot(manifestPath, cwd, fileExists).value);
      && IsCandidate(scope, kind, targetName, res.target)
      && (forall p, t :: p in scope && t in p.targets && Keep(p, t, kind, targetName) ==> Candidate(p, t) == res.target)
      && (res.notice <==> !(|scope| == 1 && scope[0].defaultRun.Some?))
  {
    var scope := Scope(packages, pkg, CrateRoot(manifestPath, cwd, fileExists).value);
    var survivors := Survivors(scope, kind, targetName);
    assert survivors == [res.target];
    SurvivorsSpec(scope, kind, targetName, res.target);
    forall p, t | p in scope && t in p.targets && Keep(p, t, kind, targetName)
      ensures Candidate(p, t) == res.target
    {
      SurvivorsSpec(scope, kind, targetName, Candidate(p, t));
    }
  }

  /** With the crate root found and the metadata read, an empty scope names what was looked
      for; no target passing the filters is `NoSelectableTarget`; several are listed, each a
      target of a package in scope that passes every filter. */
  lemma ResolutionFailures(kind: seq<string>, pkg: Option<string>, manifestPath: Option<Path>,
                           targetName: Option<string>, cwd: Path, fileExists: Path -> bool,
                           packages: seq<Package>)
    requires CrateRoot(manifestPath, cwd, fileExists).Ok?
    ensures var root := CrateRoot(manifestPath, cwd, fileExists).value;
      var scope := Scope(packages, pkg, root);
      var r := Resolution(kind, pkg, manifestPath, targetName, cwd, fileExists, Some(packages));
      && (scope == [] <==> r == Err(if pkg.Some? then NoPackageNamed(pkg.value) else NoPackageBelow(root)))
      && (r == Err(NoSelectableTarget) <==>
            scope != [] && forall p, t :: p in scope && t in p.targets ==> !Keep(p, t, kind, targetName))
      && (r.Err? && r.error.SeveralTargets? ==>
            && |r.error.candidates| >= 2
            && forall b :: b in r.error.candidates ==> IsCandidate(scope, kind, targetName, b))
  {
    var scope := Scope(packages, pkg, CrateRoot(manifestPath, cwd, fileExists).value);
    NoSurvivors(scope, kind, targetName);
    forall b | b in Survivors(scope, kind, targetName)
      ensures IsCandidate(scope, kind, targetName, b)
    {
      SurvivorsSpec(scope, kind, targetName, b);
    }
  }

  /** A `SeveralTargets` failure lists every target of a package in scope that passes the
      filters. */
  lemma SeveralTargetsListsEvery(kind: seq<string>, pkg: Option<string>, manifestPath: Option<Path>,
                                 targetName: Option<string>, cwd: Path, fileExists: Path -> bool,
                                 packages: seq<Package>)
    requires CrateRoot(manifestPath, cwd, fileExists).Ok?
    ensures var scope := Scope(packages, pkg, CrateRoot(manifestPath, cwd, fileExists).value);
      var r := Resolution(kind, pkg, manifestPath, targetName, cwd, fileExists, Some(packages));
      r.Err? && r.error.SeveralTargets? ==>
        forall p, t :: p in scope && t in p.targets && Keep(p, t, kind, targetName) ==> Candidate(p, t) in r.error.candidates
  {
    var scope := Scope(packages, pkg, CrateRoot(manifestPath, cwd, fileExists).value);
    forall p, t | p in scope && t in p.targets && Keep(p, t, kind, targetName)
      ensures Candidate(p, t) in Survivors(scope, kind, targetName)
    {
      SurvivorsSpec(scope, kind, targetName, Candidate(p, t));
    }
  }

  /** Two different targets passing the filters make the resolution fail as ambiguous. */
  lemma TwoCandidatesAreAmbiguous(kind: seq<string>, pkg: Option<string>, manifestPath: Option<Path>,
                                  targetName: Option<string>, cwd: Path, fileExists: Path -> bool,
                                  packages: seq<Package>, b1: BinaryTarget, b2: BinaryTarget)
    requires CrateRoot(manifestPath, cwd, fileExists).Ok?
    requires b1 != b2
    requires IsCandidate(Scope(packages, pkg, CrateRoot(manifestPath, cwd, fileExists).value), kind, targetName, b1)
    requires IsCandidate(Scope(packages, pkg, CrateRoot(manifestPath, cwd, fileExists).value), kind, targetName, b2)
    ensures var r := Resolution(kind, pkg, manifestPath, targetName, cwd, fileExists, Some(packages));
      r.Err? && r.error.SeveralTargets?
  {
    var scope := Scope(packages, pkg, CrateRoot(manifestPath, cwd, fileExists).value);
    var survivors := Survivors(scope, kind, targetName);
    SurvivorsSpec(scope, kind, targetName, b1);
    SurvivorsSpec(scope, kind, targetName, b2);
    assert b1 in survivors && b2 in survivors;
  }

  // ---------------------------------------------------------------------------------
  // Worked cases: one package under the crate root `/w`, with two binaries `a` and `b`.

  const Workspace: Path := ["w"]
  const WorkspaceManifest: Option<Path> := Some(Workspace + [ManifestName])
  const BinA := Target("a", ["bin"])
  const BinB := Target("b", ["bin"])

  /** The package names `a` as its `default-run` target: `a` is chosen without a notice,
      and asking for `b` by name finds nothing, because the `default-run` filter comes first. */
  lemma DefaultRunFilterComesFirst(cwd: Path, fileExists: Path -> bool)
    ensures var p := Package("p", Workspace + ["p", ManifestName], [BinA, BinB], Some("a"));
      && Resolution(["bin"], None, WorkspaceManifest, None, cwd, fileExists, Some([p]))
         == Ok(Resolved(BinaryTarget("p", "a", ["bin"]), false))
      && Resolution(["bin"], None, WorkspaceManifest, Some("b"), cwd, fileExists, Some([p]))
         == Err(NoSelectableTarget)
  {
    var p := Package("p", Workspace + ["p", ManifestName], [BinA, BinB], Some("a"));
    assert WorkspaceManifest.value[..1] == Workspace;
    assert CrateRoot(WorkspaceManifest, cwd, fileExists) == Ok(Workspace);
    assert Workspace <= p.manifestPath;
    assert Scope([p], None, Workspace) == [p];
    assert [p][..0] == [];
    assert Intersects(["bin"], ["bin"]) by { assert "bin" in ["bin"]; }
    assert [BinA, BinB][..1] == [BinA];
    assert [BinA][..0] == [];
    assert PackageSurvivors(p, [BinA], ["bin"], None) == [BinaryTarget("p", "a", ["bin"])];
    assert PackageSurvivors(p, [BinA, BinB], ["bin"], None) == [BinaryTarget("p", "a", ["bin"])];
    assert Survivors([p], ["bin"], None) == [BinaryTarget("p", "a", ["bin"])];
    assert PackageSurvivors(p, [BinA], ["bin"], Some("b")) == [];
    assert PackageSurvivors(p, [BinA, BinB], ["bin"], Some("b")) == [];
    assert Survivors([p], ["bin"], Some("b")) == [];
  }

  /** Without a `default-run` target, two binaries are ambiguous and both are listed. */
  lemma TwoBinariesAreAmbiguous(cwd: Path, fileExists: Path -> bool)
    ensures var p := Package("p", Workspace + ["p", ManifestName], [BinA, BinB], None);
      Resolution(["bin"], None, WorkspaceManifest, None, cwd, fileExists, Some([p]))
      == Err(SeveralTargets([BinaryTarget("p", "a", ["bin"]), BinaryTarget("p", "b", ["bin"])]))
  {
    var p := Package("p", Workspace + ["p", ManifestName], [BinA, BinB], None);
    assert WorkspaceManifest.value[..1] == Workspace;
    assert CrateRoot(WorkspaceManifest, cwd, fileExists) == Ok(Workspace);
    assert Workspace <= p.manifestPath;
    assert Scope([p], None, Workspace) == [p];
    assert [p][..0] == [];
    assert Intersects(["bin"], ["bin"]) by { assert "bin" in ["bin"]; }
    assert [BinA, BinB][..1] == [BinA];
    assert [BinA][..0] == [];
    assert PackageSurvivors(p, [BinA], ["bin"], None) == [BinaryTarget("p", "a", ["bin"])];
    assert PackageSurvivors(p, [BinA, BinB], ["bin"], None)
           == [BinaryTarget("p", "a", ["bin"]), BinaryTarget("p", "b", ["bin"])];
    assert Survivors([p], ["bin"], None) == [BinaryTarget("p", "a", ["bin"]), BinaryTarget("p", "b", ["bin"])];
  }

  /** A lone binary is chosen, and the choice is announced. */
  lemma LoneBinaryIsAnnounced(cwd: Path, fileExists: Path -> bool)
    ensures var p := Package("p", Workspace + ["p", ManifestName], [BinA], None);
      Resolution(["bin"], None, WorkspaceManifest, None, cwd, fileExists, Some([p]))
      == Ok(Resolved(BinaryTarget("p", "a", ["bin"]), true))
  {
    var p := Package("p", Workspace + ["p", ManifestName], [BinA], None);
    assert WorkspaceManifest.value[..1] == Workspace;
    assert CrateRoot(WorkspaceManifest, cwd, fileExists) == Ok(Workspace);
    assert Workspace <= p.manifestPath;
    assert Scope([p], None, Workspace) == [p];
    assert [p][..0] == [];
    assert Intersects(["bin"], ["bin"]) by { assert "bin" in ["bin"]; }
    assert [BinA][..0] == [];
    assert PackageSurvivors(p, [BinA], ["bin"], None) == [BinaryTarget("p", "a", ["bin"])];
    assert Survivors([p], ["bin"], None) == [BinaryTarget("p", "a", ["bin"])];
  }
}
