/** Values shared by every part of the `cargo heaptrack` front-end: the command-line
    options, the package metadata cargo reports, the build artifacts it produces and
    the errors the front-end can end with. */
module Types {

  datatype Option<+T> = None | Some(value: T)

  /** A file-system path as its list of components, absolute, the root being `[]`. */
  type Path = seq<string>

  /** The manifest file whose directory is a crate root. */
  const ManifestName: string := "Cargo.toml"

  /** A path written out with `/` separators, as it is handed to a subprocess. */
  function PathString(p: Path): (s: string)
    ensures |s| >= 1 && s[0] == '/'
  {
    if p == [] then "/"
    else if |p| == 1 then "/" + p[0]
    else PathString(p[..|p| - 1]) + "/" + p[|p| - 1]
  }

  /** Options of the heaptrack invocation itself. */
  datatype HeaptrackOpts = HeaptrackOpts(output: Option<string>, raw: bool)

  /** The options of `cargo heaptrack`. `unitTest` is `Some(None)` for a bare `--unit-test`. */
  datatype Opts = Opts(
    dev: bool,
    profile: Option<string>,
    package: Option<string>,
    bin: Option<string>,
    example: Option<string>,
    test: Option<string>,
    unitTest: Option<Option<string>>,
    bench: Option<string>,
    manifestPath: Option<Path>,
    features: Option<string>,
    noDefaultFeatures: bool,
    release: bool,
    heaptrack: HeaptrackOpts,
    trailingArguments: seq<string>)

  /** No exec-style selector (bin, example, test, bench, unit test) is given. */
  predicate NoSelector(opt: Opts) {
    opt.bin.None? && opt.bench.None? && opt.example.None? && opt.test.None? && opt.unitTest.None?
  }

  /** The command-line parser puts the selectors in one group: at most one of them is given. */
  predicate AtMostOneSelector(opt: Opts) {
    (if opt.bin.Some? then 1 else 0) + (if opt.example.Some? then 1 else 0) + (if opt.test.Some? then 1 else 0)
    + (if opt.unitTest.Some? then 1 else 0) + (if opt.bench.Some? then 1 else 0) <= 1
  }

  /** `xs` and `ys` share an element (a target's kinds against the kinds asked for). */
  predicate Intersects(xs: seq<string>, ys: seq<string>) {
    exists k :: k in xs && k in ys
  }

  /** A build target declared by a package: its name and kind tags ("bin", "lib", ...). */
  datatype Target = Target(name: string, kind: seq<string>)

  /** A package of the workspace as the metadata query reports it. */
  datatype Package = Package(name: string, manifestPath: Path, targets: seq<Target>, defaultRun: Option<string>)

  /** The target chosen by the resolver, with the package that declares it. */
  datatype BinaryTarget = BinaryTarget(package: string, target: string, kind: seq<string>)

  /** Debug information level of an artifact; `DebugNone` is cargo's "none". */
  datatype Debuginfo = DebugNone | LineDirectivesOnly | LineTablesOnly | Limited | Full | UnknownLevel(level: string)

  /** A compiler artifact produced by the build. */
  datatype Artifact = Artifact(target: Target, executable: Option<string>, debuginfo: Debuginfo)

  /** One message of cargo's structured output stream. */
  datatype Message = CompilerArtifact(artifact: Artifact) | OtherMessage | Malformed(line: string)

  /** Every way an invocation ends in failure. */
  datatype Error =
    | BuildFailed
    | ParseError(line: string)
    | NoExecutable
    | NoTargetForProfiling
    | TargetNotFound(kinds: seq<string>, name: string, found: seq<(seq<string>, string)>)
    | ManifestHasNoParent(manifest: Path)
    | ManifestNotFound(cwd: Path)
    | MetadataUnavailable
    | NoPackageNamed(name: string)
    | NoPackageBelow(root: Path)
    | NoSelectableTarget
    | SeveralTargets(candidates: seq<BinaryTarget>)
    | HeaptrackFailed

  datatype Result<+T> = Ok(value: T) | Err(error: Error)
}
