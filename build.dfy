/** The build step: the argument list handed to cargo, and the compiler artifacts
    kept from cargo's structured output. */
module Build {
  import opened Types

  const PackageFlag: string := "--package"
  const BinFlag: string := "--bin"
  const ExampleFlag: string := "--example"
  const TestFlag: string := "--test"
  const BenchFlag: string := "--bench"
  const LibFlag: string := "--lib"
  const ManifestFlag: string := "--manifest-path"
  const FeaturesFlag: string := "--features"
  const NoDefaultFlag: string := "--no-default-features"
  const ProfileFlag: string := "--profile"
  const ReleaseFlag: string := "--release"
  /** Always the last argument: structured messages on stdout, diagnostics rendered on stderr. */
  const MessageFormat: string := "--message-format=json-render-diagnostics"

  /** `bench --no-run` is how benchmarks get built with cargo's bench profile. */
  function Subcommand(opt: Opts): seq<string> {
    if !opt.dev && opt.bench.Some? then ["bench", "--no-run"]
    else if opt.unitTest.Some? then ["test", "--no-run"]
    else ["build"]
  }

  /** An explicit profile wins; otherwise release, except for dev builds and benchmarks. */
  function ProfileArgs(opt: Opts): seq<string> {
    if opt.profile.Some? then [ProfileFlag, opt.profile.value]
    else if !opt.dev && opt.bench.None? then [ReleaseFlag]
    else []
  }

  /** `flag value` when the option is given, nothing otherwise. */
  function Pair(flag: string, value: Option<string>): seq<string> {
    if value.Some? then [flag, value.value] else []
  }

  function Switch(flag: string, on: bool): seq<string> {
    if on then [flag] else []
  }

  /** A named unit test selects the library harness when the target is a library. */
  function UnitTestArgs(opt: Opts, kind: seq<string>): seq<string> {
    if opt.unitTest.Some? && opt.unitTest.value.Some? then
      if "lib" in kind then [LibFlag] else [BinFlag, opt.unitTest.value.value]
    else []
  }

  function ManifestArg(opt: Opts): Option<string> {
    if opt.manifestPath.Some? then Some(PathString(opt.manifestPath.value)) else None
  }

  /** The package and target selection: `--package`, then the selectors in a fixed order. */
  function TargetArgs(opt: Opts, kind: seq<string>): seq<string> {
    Pair(PackageFlag, opt.package)
    + Pair(BinFlag, opt.bin)
    + Pair(ExampleFlag, opt.example)
    + Pair(TestFlag, opt.test)
    + Pair(BenchFlag, opt.bench)
    + UnitTestArgs(opt, kind)
  }

  /** Manifest, features and the message format, which always comes last. */
  function TrailingArgs(opt: Opts): seq<string> {
    Pair(ManifestFlag, ManifestArg(opt))
    + Pair(FeaturesFlag, opt.features)
    + Switch(NoDefaultFlag, opt.noDefaultFeatures)
    + [MessageFormat]
  }

  /** The arguments given to cargo for `opt`, `kind` being the kinds of the resolved target. */
  function BuildCommand(opt: Opts, kind: seq<string>): seq<string> {
    Subcommand(opt) + ProfileArgs(opt) + TargetArgs(opt, kind) + TrailingArgs(opt)
  }

  lemma Assoc(a: seq<string>, b: seq<string>, c: seq<string>)
    ensures a + b + c == a + (b + c)
  {
  }

  /** The artifacts reported on cargo's message stream, in order; other messages are
      skipped and the first malformed one fails the whole stream. */
  function CompilerArtifacts(msgs: seq<Message>): (r: Result<seq<Artifact>>)
    ensures r.Ok? <==> forall i :: 0 <= i < |msgs| ==> !msgs[i].Malformed?
    ensures r.Err? ==> exists i :: 0 <= i < |msgs| && msgs[i].Malformed? && r.error == ParseError(msgs[i].line)
                                   && forall j :: 0 <= j < i ==> !msgs[j].Malformed?
    ensures r.Ok? ==> forall a :: a in r.value <==> CompilerArtifact(a) in msgs
  {
    if msgs == [] then Ok([])
    else match msgs[0]
      case Malformed(line) => Err(ParseError(line))
      case OtherMessage => CompilerArtifacts(msgs[1..])
      case CompilerArtifact(a) =>
        match CompilerArtifacts(msgs[1..])
        case Ok(rest) => Ok([a] + rest)
        case Err(e) => Err(e)
  }

  /** Appends `flag value` to the arguments when the option is given. */
  method PushPair(args: seq<string>, flag: string, value: Option<string>) returns (r: seq<string>)
    ensures r == args + Pair(flag, value)
  {
    r := args;
    if value.Some? {
      r := r + [flag, value.value];
    }
  }

  /** Appends the package and target selection, pair by pair. */
  method PushTargets(args: seq<string>, opt: Opts, kind: seq<string>) returns (r: seq<string>)
    ensures r == args + TargetArgs(opt, kind)
  {
    var p1, p2, p3 := Pair(PackageFlag, opt.package), Pair(BinFlag, opt.bin), Pair(ExampleFlag, opt.example);
    var p4, p5 := Pair(TestFlag, opt.test), Pair(BenchFlag, opt.bench);
    r := PushPair(args, PackageFlag, opt.package);
    r := PushPair(r, BinFlag, opt.bin);
    Assoc(args, p1, p2);
    r := PushPair(r, ExampleFlag, opt.example);
    Assoc(args, p1 + p2, p3);
    r := PushPair(r, TestFlag, opt.test);
    Assoc(args, p1 + p2 + p3, p4);
    r := PushPair(r, BenchFlag, opt.bench);
    Assoc(args, p1 + p2 + p3 + p4, p5);
    assert r == args + (p1 + p2 + p3 + p4 + p5);
    if opt.unitTest.Some? && opt.unitTest.value.Some? {
      if "lib" in kind {
        r := r + [LibFlag];
      } else {
        r := r + [BinFlag, opt.unitTest.value.value];
      }
    }
    Assoc(args, p1 + p2 + p3 + p4 + p5, UnitTestArgs(opt, kind));
  }

  /** Appends the manifest path, the features, the switch and the message format. */
  method PushTrailing(args: seq<string>, opt: Opts) returns (r: seq<string>)
    ensures r == args + TrailingArgs(opt)
  {
    var q1, q2, q3 := Pair(ManifestFlag, ManifestArg(opt)), Pair(FeaturesFlag, opt.features), Switch(NoDefaultFlag, opt.noDefaultFeatures);
    r := PushPair(args, ManifestFlag, ManifestArg(opt));
    r := PushPair(r, FeaturesFlag, opt.features);
    Assoc(args, q1, q2);
    if opt.noDefaultFeatures {
      r := r + [NoDefaultFlag];
    }
    Assoc(args, q1 + q2, q3);
    r := r + [MessageFormat];
    Assoc(args, q1 + q2 + q3, [MessageFormat]);
  }

  /** Runs the build: grows cargo's argument list step by step, then keeps the artifacts
      of a successful build. The subprocess is replaced by its exit status and stdout. */
  method Build(opt: Opts, kind: seq<string>, exitSuccess: bool, stdout: seq<Message>)
    returns (args: seq<string>, r: Result<seq<Artifact>>)
    ensures args == BuildCommand(opt, kind)
    ensures !exitSuccess ==> r == Err(BuildFailed)
    ensures exitSuccess ==> r == CompilerArtifacts(stdout)
  {
    if !opt.dev && opt.bench.Some? {
      args := ["bench", "--no-run"];
    } else if opt.unitTest.Some? {
      args := ["test", "--no-run"];
    } else {
      args := ["build"];
    }
    assert args == Subcommand(opt);

    if opt.profile.Some? {
      args := args + [ProfileFlag, opt.profile.value];
    } else if !opt.dev && opt.bench.None? {
      args := args + [ReleaseFlag];
    }
    assert args == Subcommand(opt) + ProfileArgs(opt);

    args := PushTargets(args, opt, kind);
    args := PushTrailing(args, opt);

    if !exitSuccess {
      r := Err(BuildFailed);
    } else {
      r := CompilerArtifacts(stdout);
    }
  }

  // ---------------------------------------------------------------------------------
  // Reading the argument list back: the fixed layout determines every option.

  datatype Mode = BuildMode | TestNoRun | BenchNoRun

  datatype ProfileChoice = NamedProfile(name: string) | ReleaseProfile | DefaultProfile

  /** The package and targets cargo is asked to build. */
  datatype TargetRequest = TargetRequest(
    package: Option<string>,
    bin: Option<string>,
    example: Option<string>,
    test: Option<string>,
    bench: Option<string>,
    lib: bool)

  /** What cargo is asked to do, as read off its argument list. */
  datatype CargoRequest = CargoRequest(
    mode: Mode,
    profile: ProfileChoice,
    targets: TargetRequest,
    manifestPath: Option<string>,
    features: Option<string>,
    noDefaultFeatures: bool)

  /** The flags that can open the target selection and the trailing part. */
  const TargetFlags: set<string> := {PackageFlag, BinFlag, ExampleFlag, TestFlag, BenchFlag, LibFlag}
  const TrailingFlags: set<string> := {ManifestFlag, FeaturesFlag, NoDefaultFlag, MessageFormat}

  function DecodeMode(args: seq<string>): Option<(Mode, seq<string>)> {
    if |args| >= 2 && args[0] == "bench" && args[1] == "--no-run" then Some((BenchNoRun, args[2..]))
    else if |args| >= 2 && args[0] == "test" && args[1] == "--no-run" then Some((TestNoRun, args[2..]))
    else if |args| >= 1 && args[0] == "build" then Some((BuildMode, args[1..]))
    else None
  }

  function DecodeProfile(args: seq<string>): (ProfileChoice, seq<string>) {
    if |args| >= 2 && args[0] == ProfileFlag then (NamedProfile(args[1]), args[2..])
    else if |args| >= 1 && args[0] == ReleaseFlag then (ReleaseProfile, args[1..])
    else (DefaultProfile, args)
  }

  function TakePair(args: seq<string>, flag: string): (Option<string>, seq<string>) {
    if |args| >= 2 && args[0] == flag then (Some(args[1]), args[2..]) else (None, args)
  }

  function TakeSwitch(args: seq<string>, flag: string): (bool, seq<string>) {
    if |args| >= 1 && args[0] == flag then (true, args[1..]) else (false, args)
  }

  function DecodeTargets(args: seq<string>): (TargetRequest, seq<string>) {
    var (package, a1) := TakePair(args, PackageFlag);
    var (selectors, a2) := DecodeSelectors(a1);
    (selectors.(package := package), a2)
  }

  /** The selectors that follow `--package`; the package is left unset. */
  function DecodeSelectors(a1: seq<string>): (TargetRequest, seq<string>) {
    var (bin, a2) := TakePair(a1, BinFlag);
    var (example, a3) := TakePair(a2, ExampleFlag);
    var (test, a4) := TakePair(a3, TestFlag);
    var (bench, a5) := TakePair(a4, BenchFlag);
    var (lib, a6) := TakeSwitch(a5, LibFlag);
    (TargetRequest(None, bin, example, test, bench, lib), a6)
  }

  function DecodeTrailing(args: seq<string>): Option<(Option<string>, Option<string>, bool)> {
    var (manifest, a1) := TakePair(args, ManifestFlag);
    var (features, a2) := TakePair(a1, FeaturesFlag);
    var (noDefault, a3) := TakeSwitch(a2, NoDefaultFlag);
    if a3 == [MessageFormat] then Some((manifest, features, noDefault)) else None
  }

  /** Reads an argument list laid out as `BuildCommand` lays it out. */
  function DecodeBuild(args: seq<string>): Option<CargoRequest> {
    match DecodeMode(args)
    case None => None
    case Some((mode, a0)) =>
      var (profile, a1) := DecodeProfile(a0);
      var (targets, a2) := DecodeTargets(a1);
      match DecodeTrailing(a2)
      case None => None
      case Some((manifest, features, noDefault)) =>
        Some(CargoRequest(mode, profile, targets, manifest, features, noDefault))
  }

  lemma TakePairOf(flag: string, value: Option<string>, rest: seq<string>)
    requires value.None? ==> rest != [] && rest[0] != flag
    ensures TakePair(Pair(flag, value) + rest, flag) == (value, rest)
  {
    if value.Some? {
      var args := Pair(flag, value) + rest;
      assert args[0] == flag && args[1] == value.value;
      assert args[2..] == rest;
    } else {
      assert Pair(flag, value) + rest == rest;
    }
  }

  lemma TakeSwitchOf(flag: string, on: bool, rest: seq<string>)
    requires !on ==> rest != [] && rest[0] != flag
    ensures TakeSwitch(Switch(flag, on) + rest, flag) == (on, rest)
  {
    if on {
      assert (Switch(flag, on) + rest)[1..] == rest;
    } else {
      assert Switch(flag, on) + rest == rest;
    }
  }

  /** The trailing part reads back as the manifest path, the features and the switch. */
  lemma TrailingDecodes(opt: Opts)
    ensures TrailingArgs(opt)[0] in TrailingFlags
    ensures DecodeTrailing(TrailingArgs(opt)) == Some((ManifestArg(opt), opt.features, opt.noDefaultFeatures))
  {
    var t3 := [MessageFormat];
    var t2 := Switch(NoDefaultFlag, opt.noDefaultFeatures) + t3;
    var t1 := Pair(FeaturesFlag, opt.features) + t2;
    assert TrailingArgs(opt) == Pair(ManifestFlag, ManifestArg(opt)) + t1;
    TakeSwitchOf(NoDefaultFlag, opt.noDefaultFeatures, t3);
    TakePairOf(FeaturesFlag, opt.features, t2);
    TakePairOf(ManifestFlag, ManifestArg(opt), t1);
  }

  /** The target selection reads back field by field; a named unit test shows up as
      `--lib` or as `--bin`. */
  lemma TargetsDecode(opt: Opts, kind: seq<string>, rest: seq<string>)
    requires AtMostOneSelector(opt)
    requires rest != [] && rest[0] in TrailingFlags
    ensures (TargetArgs(opt, kind) + rest)[0] in TargetFlags + TrailingFlags
    ensures DecodeTargets(TargetArgs(opt, kind) + rest) == (TargetRequest(
      opt.package,
      if opt.unitTest.Some? && opt.unitTest.value.Some? && "lib" !in kind then opt.unitTest.value else opt.bin,
      opt.example, opt.test, opt.bench,
      opt.unitTest.Some? && opt.unitTest.value.Some? && "lib" in kind), rest)
  {
    var t1 := SelectorsThen(opt, kind, rest);
    assert TargetArgs(opt, kind) + rest == Pair(PackageFlag, opt.package) + t1;
    if opt.unitTest.Some? && opt.unitTest.value.Some? {
      UnitSelectorsDecode(opt, kind, rest);
    } else {
      PlainSelectorsDecode(opt, kind, rest);
    }
    TakePairOf(PackageFlag, opt.package, t1);
  }

  /** The selectors after `--package`, followed by `rest`. */
  function SelectorsThen(opt: Opts, kind: seq<string>, rest: seq<string>): seq<string> {
    Pair(BinFlag, opt.bin) + (Pair(ExampleFlag, opt.example) + (Pair(TestFlag, opt.test)
    + (Pair(BenchFlag, opt.bench) + (UnitTestArgs(opt, kind) + rest))))
  }

  /** A named unit test, the only selector given, reads back as `--lib` or `--bin <name>`. */
  lemma UnitSelectorsDecode(opt: Opts, kind: seq<string>, rest: seq<string>)
    requires AtMostOneSelector(opt) && opt.unitTest.Some? && opt.unitTest.value.Some?
    requires rest != [] && rest[0] in TrailingFlags
    ensures SelectorsThen(opt, kind, rest)[0] in TargetFlags
    ensures DecodeSelectors(SelectorsThen(opt, kind, rest))
            == (TargetRequest(None, if "lib" in kind then None else opt.unitTest.value, None, None, None, "lib" in kind), rest)
  {
    var t5 := UnitTestArgs(opt, kind) + rest;
    assert opt.bin.None? && opt.example.None? && opt.test.None? && opt.bench.None?;
    assert Pair(BenchFlag, opt.bench) + t5 == t5;
    assert SelectorsThen(opt, kind, rest) == t5;
    if "lib" in kind {
      assert t5 == Switch(LibFlag, true) + rest;
      TakePairOf(BinFlag, None, t5);
      TakeSwitchOf(LibFlag, true, rest);
    } else {
      assert t5 == Pair(BinFlag, opt.unitTest.value) + (Switch(LibFlag, false) + rest);
      TakeSwitchOf(LibFlag, false, rest);
      TakePairOf(BinFlag, opt.unitTest.value, rest);
    }
  }

  /** Without a named unit test every selector reads back from its own pair and `--lib` is absent. */
  lemma PlainSelectorsDecode(opt: Opts, kind: seq<string>, rest: seq<string>)
    requires !(opt.unitTest.Some? && opt.unitTest.value.Some?)
    requires rest != [] && rest[0] in TrailingFlags
    ensures SelectorsThen(opt, kind, rest)[0] in TargetFlags + TrailingFlags
    ensures DecodeSelectors(SelectorsThen(opt, kind, rest))
            == (TargetRequest(None, opt.bin, opt.example, opt.test, opt.bench, false), rest)
  {
    var t5 := UnitTestArgs(opt, kind) + rest;
    var t4 := Pair(BenchFlag, opt.bench) + t5;
    var t3 := Pair(TestFlag, opt.test) + t4;
    var t2 := Pair(ExampleFlag, opt.example) + t3;
    assert t5 == rest;
    TakeSwitchOf(LibFlag, false, rest);
    TakePairOf(BenchFlag, opt.bench, t5);
    TakePairOf(TestFlag, opt.test, t4);
    TakePairOf(ExampleFlag, opt.example, t3);
    TakePairOf(BinFlag, opt.bin, t2);
  }

  /** The argument list carries every option in its own slot: the subcommand, exactly one
      profile choice, each selector and flag verbatim exactly when it is given, and the
      unit-test selection as `--lib` or `--bin`. */
  lemma BuildCommandDecodes(opt: Opts, kind: seq<string>)
    requires AtMostOneSelector(opt)
    ensures var d := DecodeBuild(BuildCommand(opt, kind));
      && d.Some?
      && (d.value.mode == BenchNoRun <==> !opt.dev && opt.bench.Some?)
      && (d.value.mode == TestNoRun <==> (opt.dev || opt.bench.None?) && opt.unitTest.Some?)
      && (d.value.profile.NamedProfile? <==> opt.profile.Some?)
      && (opt.profile.Some? ==> d.value.profile.name == opt.profile.value)
      && (d.value.profile == ReleaseProfile <==> opt.profile.None? && !opt.dev && opt.bench.None?)
      && d.value.targets.package == opt.package
      && d.value.targets.bin == (if opt.unitTest.Some? && opt.unitTest.value.Some? && "lib" !in kind
                                 then opt.unitTest.value else opt.bin)
      && d.value.targets.example == opt.example
      && d.value.targets.test == opt.test
      && d.value.targets.bench == opt.bench
      && (d.value.targets.lib <==> opt.unitTest.Some? && opt.unitTest.value.Some? && "lib" in kind)
      && d.value.manifestPath == ManifestArg(opt)
      && d.value.features == opt.features
      && d.value.noDefaultFeatures == opt.noDefaultFeatures
  {
    var t2 := TrailingArgs(opt);
    var t1 := TargetArgs(opt, kind) + t2;
    var t0 := ProfileArgs(opt) + t1;
    BuildCommandNested(opt, kind);
    TrailingDecodes(opt);
    TargetsDecode(opt, kind, t2);
    ProfileDecodes(opt, t1);
    ModeDecodes(opt, t0);
  }

  /** The command as the subcommand followed by the rest, nested from the right. */
  lemma BuildCommandNested(opt: Opts, kind: seq<string>)
    ensures BuildCommand(opt, kind)
            == Subcommand(opt) + (ProfileArgs(opt) + (TargetArgs(opt, kind) + TrailingArgs(opt)))
  {
    var t1 := TargetArgs(opt, kind) + TrailingArgs(opt);
    Assoc(Subcommand(opt) + ProfileArgs(opt), TargetArgs(opt, kind), TrailingArgs(opt));
    Assoc(Subcommand(opt), ProfileArgs(opt), t1);
  }

  lemma ProfileDecodes(opt: Opts, rest: seq<string>)
    requires rest != [] && rest[0] in TargetFlags + TrailingFlags
    ensures var (choice, after) := DecodeProfile(ProfileArgs(opt) + rest);
      && after == rest
      && (choice.NamedProfile? <==> opt.profile.Some?)
      && (opt.profile.Some? ==> choice.name == opt.profile.value)
      && (choice == ReleaseProfile <==> opt.profile.None? && !opt.dev && opt.bench.None?)
  {
    var args := ProfileArgs(opt) + rest;
    if opt.profile.Some? {
      assert args[2..] == rest;
    } else if !opt.dev && opt.bench.None? {
      assert args[1..] == rest;
    } else {
      assert args == rest;
      assert rest[0] != ProfileFlag && rest[0] != ReleaseFlag;
    }
  }

  lemma ModeDecodes(opt: Opts, rest: seq<string>)
    ensures DecodeMode(Subcommand(opt) + rest) == Some((
      if !opt.dev && opt.bench.Some? then BenchNoRun
      else if opt.unitTest.Some? then TestNoRun
      else BuildMode, rest))
  {
    var args := Subcommand(opt) + rest;
    if (!opt.dev && opt.bench.Some?) || opt.unitTest.Some? {
      assert args[2..] == rest;
    } else {
      assert args[1..] == rest;
    }
  }

  /** The command opens with the subcommand and ends with the message format. */
  lemma BuildCommandFrame(opt: Opts, kind: seq<string>)
    ensures var args := BuildCommand(opt, kind);
      && |args| >= |Subcommand(opt)| + 1
      && args[..|Subcommand(opt)|] == Subcommand(opt)
      && args[|args| - 1] == MessageFormat
  {
    var sub, rest := Subcommand(opt), ProfileArgs(opt) + TargetArgs(opt, kind) + TrailingArgs(opt);
    Assoc(sub, ProfileArgs(opt), TargetArgs(opt, kind));
    Assoc(sub, ProfileArgs(opt) + TargetArgs(opt, kind), TrailingArgs(opt));
    assert BuildCommand(opt, kind) == sub + rest;
    assert (sub + rest)[..|sub|] == sub;
  }

  /** A benchmark built with `--dev` goes through plain `cargo build`, without `--release`. */
  lemma DevBenchUsesBuild(opt: Opts, kind: seq<string>)
    requires opt.dev && opt.bench.Some? && opt.unitTest.None? && opt.profile.None?
    ensures BuildCommand(opt, kind)[0] == "build"
    ensures ProfileArgs(opt) == []
  {
  }

  /** The `--release` option of `cargo heaptrack` is accepted and ignored. */
  lemma ReleaseOptionIgnored(opt: Opts, kind: seq<string>)
    ensures BuildCommand(opt.(release := !opt.release), kind) == BuildCommand(opt, kind)
  {
  }

  /** The artifact list of two message streams read one after the other. */
  lemma {:induction false} CompilerArtifactsAppend(a: seq<Message>, b: seq<Message>)
    ensures CompilerArtifacts(a + b) ==
      match CompilerArtifacts(a)
      case Err(e) => Err(e)
      case Ok(xs) =>
        match CompilerArtifacts(b)
        case Ok(ys) => Ok(xs + ys)
        case Err(e) => Err(e)
  {
    if a == [] {
      assert a + b == b;
      if CompilerArtifacts(b).Ok? {
        assert [] + CompilerArtifacts(b).value == CompilerArtifacts(b).value;
      }
    } else {
      assert (a + b)[0] == a[0];
      assert (a + b)[1..] == a[1..] + b;
      CompilerArtifactsAppend(a[1..], b);
      if a[0].CompilerArtifact? && CompilerArtifacts(a[1..]).Ok? && CompilerArtifacts(b).Ok? {
        var x, xs, ys := a[0].artifact, CompilerArtifacts(a[1..]).value, CompilerArtifacts(b).value;
        assert [x] + (xs + ys) == ([x] + xs) + ys;
      }
    }
  }

  /** One message on its own: an artifact is kept, another kind is dropped. */
  lemma CompilerArtifactsSingle(m: Message)
    ensures CompilerArtifacts([m]) == match m
      case CompilerArtifact(a) => Ok([a])
      case OtherMessage => Ok([])
      case Malformed(line) => Err(ParseError(line))
  {
    assert [m][1..] == [];
    if m.CompilerArtifact? {
      assert [m.artifact] + [] == [m.artifact];
    }
  }
}
