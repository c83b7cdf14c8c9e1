# cargo heaptrack — a verified model of its decision logic

`cargo heaptrack` is a cargo subcommand that builds a crate and runs one of its executables
under the heaptrack memory profiler. This project models in Dafny the rules the front-end
in `src/main.rs` follows between parsing the command line and spawning heaptrack. The
model covers:

- the selection dispatch in `main`, which resolves a target when the options leave it open;
- the target resolver `find_unique_target`, with the crate-root search `find_crate_root`;
- the cargo command line built by `build`, and the compiler artifacts kept from cargo's
  message stream;
- the workload extractor `workload`, which picks the executable and emits the debug-info
  advisory;
- the heaptrack command line built by `run_heaptrack`.

The subprocesses and the file system become inputs:

- the exit status of `cargo build` and of heaptrack is a boolean;
- cargo's structured stdout is a sequence of already-tagged messages;
- `cargo metadata` is an optional list of packages (`None` when the query fails);
- "does this file exist" is a function `Path -> bool`.

Paths are sequences of components, absolute, with the root being `[]`.

Modules, one per part of `src/main.rs`:

- `Types` (types.dfy): options, packages, targets, artifacts, messages and errors.
- `Build` (build.dfy): `build`. The method `Build.Build` grows the argument list push by
  push, and is proved equal to `BuildCommand`. `DecodeBuild` reads an argument list back
  into a `CargoRequest`. The round trip `BuildCommandDecodes` shows that every option lands
  in its own slot.
- `Workload` (workload.dfy): `workload`, as a pure function.
- `Resolve` (resolve.dfy): `find_crate_root` and `find_unique_target`. The ancestor walk
  and the counting `flat_map` are methods with loops. Each is proved equal to a recursive
  specification, and that specification is characterised by lemmas.
- `Heaptrack` (heaptrack.dfy): `run_heaptrack`'s argument list, with a decoder as its
  inverse.
- `Dispatch` (dispatch.dfy): the selection dispatch of `main`. The method writes the
  resolved target back into the options. `CargoHeaptrack` chains dispatch, build,
  extraction and profiling the way `main` does.

Behaviour worth knowing, as the code has it:

- A package's `default-run` filter applies whatever kinds are asked for, including the
  unit-test resolution over binaries and libraries. It comes before the name filter, so
  naming another target of such a package finds nothing.
- The profile named by the debug-info advisory depends only on which selector is set,
  not on `--profile` or `--dev`.
- The crate root is computed before the metadata is read, even when `--package` is
  given and the root is not used to scope.

## Model

| member | source | states |
|---|---|---|
| Build.Build | src/main.rs:102-185 | The argument list is exactly `BuildCommand(opt, kind)`. A failed build is `BuildFailed`. A successful one yields the artifacts of the message stream. |
| Build.BuildCommandDecodes | src/main.rs:102-168 | Reading the command back gives each option in its own slot. The subcommand is `bench --no-run` iff `!dev` and a bench is set, else `test --no-run` iff a unit test is set. There is a named profile iff `--profile` is given, and `--release` iff no profile, not dev and no bench. Package, example, test, bench, manifest path, features and `--no-default-features` come back verbatim. A named unit test comes back as `--lib` iff its kinds contain "lib", else as `--bin <name>`. |
| Build.ModeDecodes | src/main.rs:106-112 | The subcommand reads back as bench-no-run, test-no-run or build, by the precedence of the source. |
| Build.ProfileDecodes | src/main.rs:114-119 | `--profile p` appears iff a profile is given, carrying it verbatim. Otherwise `--release` appears iff not dev and no bench. The two never both appear. |
| Build.TargetsDecode | src/main.rs:121-152 | The package and selector pairs appear iff their options are set, in the fixed order, with their values. A named unit test becomes `--lib` or `--bin <name>`. |
| Build.UnitSelectorsDecode | src/main.rs:146-152 | A named unit test, as the only selector, reads back as `--lib` when "lib" is among the kinds, else as `--bin <name>`. |
| Build.PlainSelectorsDecode | src/main.rs:126-144 | Without a named unit test, bin, example, test and bench read back from their own pairs and no `--lib` appears. |
| Build.TrailingDecodes | src/main.rs:154-168 | The manifest path, features and `--no-default-features` read back as given, followed by the message-format flag alone. |
| Build.BuildCommandFrame | src/main.rs:106-168 | The list opens with the subcommand and always ends with `--message-format=json-render-diagnostics`. |
| Build.DevBenchUsesBuild | src/main.rs:106-119 | A benchmark built with `--dev` and no profile uses plain `build`, and no profile flag at all is emitted. |
| Build.ReleaseOptionIgnored | src/main.rs:82-84 | The `--release` option never changes the cargo command. |
| Build.PushPair | src/main.rs:121-124 | Appends `flag value` exactly when the option is set. |
| Build.PushTargets | src/main.rs:121-152 | Appending the package pair, the selector pairs and the unit-test selection one push at a time gives exactly `TargetArgs`. |
| Build.PushTrailing | src/main.rs:154-168 | Appending the manifest pair, the features pair, the switch and the message format one push at a time gives exactly `TrailingArgs`. |
| Build.CompilerArtifacts | src/main.rs:179-185 | The result is Ok iff no message is malformed, and then holds exactly the compiler-artifact payloads. Otherwise it is the parse error of the first malformed message. |
| Build.CompilerArtifactsAppend | src/main.rs:179-185 | Filtering two streams read one after the other keeps both streams' artifacts in order. The first stream's error wins. |
| Build.CompilerArtifactsSingle | src/main.rs:180-184 | An artifact message is kept, other kinds are dropped, and a malformed one is a parse error. |
| Workload.FindArtifact | src/main.rs:208-227 | Returns the first artifact with an executable, the selected name and a kind among the selected kinds. None iff there is no such artifact. |
| Workload.ExtractWorkload | src/main.rs:188-253 | It fails with "no executable" iff no artifact has one, and with "no target" iff there are executables but no selector. It succeeds iff a matching artifact exists. When executables exist and a selector is set but nothing matches, the error is `TargetNotFound` with the selection and every (kind, name). On success the command is the first match's executable followed by exactly the trailing arguments. The advisory is due iff not dev and that artifact has no debug info, and it names `AdvisoryProfile`. |
| Workload.NoArtifactsNoExecutable | src/main.rs:189-191 | An empty artifact list fails with "no executable". |
| Workload.FindArtifactIgnoresDebuginfo | src/main.rs:208-218 | The search does not look at debug info. |
| Workload.AdvisoryDoesNotChangeCommand | src/main.rs:229-252 | Neither debug info nor `--dev` changes whether a command is found, or which. |
| Workload.BinWithoutDebuginfo | src/main.rs:229-247 | For `--bin x` without debug info, the advisory names the release profile. With full debug info there is no advisory. |
| Resolve.NearestManifestDir | src/main.rs:286-298 | The result is the deepest ancestor of the working directory (itself included) that holds `Cargo.toml`. None iff no ancestor does. |
| Resolve.FindCrateRoot | src/main.rs:268-301 | The loop walks the ancestors, deepest first. Its result is the manifest's parent when a manifest path is given (an error when there is none), or else the nearest ancestor with a manifest, or else `ManifestNotFound`. |
| Resolve.Scope | src/main.rs:322-326 | A package is in scope iff it has the given name, or, with no name, iff its manifest lies under the crate root. |
| Resolve.CollectTargets | src/main.rs:338-377 | The loops count every package in scope and note whether any has `default-run`. They collect exactly the surviving targets, in order. |
| Resolve.FindUniqueTarget | src/main.rs:303-400 | Runs the resolution as specified by `Resolution`. The notice condition on the counters agrees with `Notice` on the scope. |
| Resolve.PackageSurvivorsSpec | src/main.rs:353-375 | A target of a package survives iff its kinds meet the requested kinds, it is the package's `default-run` when one is set, and it has the requested name when one is given. |
| Resolve.SurvivorsSpec | src/main.rs:341-377 | The survivors are exactly the candidates over all packages in scope. |
| Resolve.NoSurvivors | src/main.rs:341-377 | There are no survivors iff no target of any package in scope passes the filters. |
| Resolve.ResolvedIsTheOnlyCandidate | src/main.rs:379-390 | On success the chosen target passes every filter and every passing target is it. The notice is left out iff exactly one package is in scope and it has `default-run`. |
| Resolve.ResolutionFailures | src/main.rs:328-336 | An empty scope fails naming the package or the crate root. `NoSelectableTarget` occurs iff the scope is non-empty and no target passes. `SeveralTargets` lists at least two passing targets. |
| Resolve.SeveralTargetsListsEvery | src/main.rs:341-377 | A `SeveralTargets` failure lists every target of a package in scope that passes the filters. |
| Resolve.TwoCandidatesAreAmbiguous | src/main.rs:379-399 | Two different targets passing the filters make the resolution fail with `SeveralTargets`. |
| Resolve.DefaultRunFilterComesFirst | src/main.rs:359-368 | A package with `default-run = a` and binaries a and b resolves to a with no notice. Asking for b by name finds nothing. |
| Resolve.TwoBinariesAreAmbiguous | src/main.rs:395-398 | A package with two binaries and no `default-run` fails with both as candidates. |
| Resolve.LoneBinaryIsAnnounced | src/main.rs:380-389 | A package with one binary and no `default-run` resolves to it, with the notice. |
| Heaptrack.RunHeaptrack | src/main.rs:442-462 | The argument list is `HeaptrackCommand(opts, target, args)`. The outcome is Ok iff heaptrack exits successfully, else `HeaptrackFailed`. |
| Heaptrack.HeaptrackCommandDecodes | src/main.rs:443-451 | Reading the argument list back gives the output file, the raw flag, the executable and its arguments, whenever the executable is not spelled like a heaptrack option. |
| Heaptrack.HeaptrackCommandLayout | src/main.rs:443-451 | `--output o` comes first when set, then `--raw` when set, then the executable, then the arguments in order. |
| Dispatch.ResolveSelection | src/main.rs:405-432 | Writing the resolved target back into the options, field by field, gives `Dispatch`. |
| Dispatch.DispatchSelectsTarget | src/main.rs:405-432 | After dispatch some selector is set and at most one is, so the extractor's "no target" failure cannot occur. |
| Dispatch.DispatchWithoutSelector | src/main.rs:405-419 | With no selector, dispatch resolves over `bin` with no name filter and fails as the resolver fails. On success it sets `bin` and `package` to the resolved target and changes nothing else. |
| Dispatch.DispatchUnitTest | src/main.rs:420-429 | With `--unit-test [x]`, dispatch resolves over `bin` and `lib`, filtering by x when given, and fails as the resolver fails. It sets `unit_test` to the resolved name and `package` to its package, changes nothing else, and passes the resolver's notice on. |
| Dispatch.BuildRequestsResolvedTarget | src/main.rs:405-434 | After a resolution, the cargo command asks for the resolved package and target: `--lib` for a library unit test, and `--bin <resolved name>` otherwise. |
| Dispatch.ProfileWorkload | src/main.rs:435-438 | Splitting off the workload's first element as the program and running heaptrack gives `Profile`. |
| Dispatch.CargoHeaptrack | src/main.rs:402-439 | Dispatch, build, extraction and profiling chained as `main` chains them give `Invocation`. Each failure ends the run with its own error. |
| Dispatch.NeverWithoutTarget | src/main.rs:402-439 | Under the one-selector rule no invocation ends with "no target for profiling". |
| Dispatch.HeaptrackRunsBuiltExecutable | src/main.rs:402-439 | heaptrack runs only after a successful build whose output parsed. It runs the executable of an artifact that build produced, with the user's heaptrack options and exactly the trailing arguments. The run succeeds iff heaptrack ran and succeeded. |
| Dispatch.ProfileRunsArtifact | src/main.rs:435-438 | heaptrack is given the executable of one of the artifacts followed by the trailing arguments. |

## Left out

- Spawning and waiting for cargo and heaptrack, and the case where a process cannot be
  started at all. Their exit statuses are inputs, and cargo's stdout is a list of messages.
- JSON decoding of cargo's message stream and of `cargo metadata`. Messages arrive already
  tagged, with malformed lines as their own variant, and metadata is a list of packages.
- Command-line parsing. The rule that at most one of bin, example, test, unit-test and
  bench is given is the precondition `AtMostOneSelector`. The `raw` option is taken as
  given, although the parser's default makes it true.
- `Path::canonicalize`, `current_dir` and `Path::exists`. The working directory is a
  parameter, existence is a function argument, and the canonical form of a manifest's
  directory is the directory itself. A manifest path is absolute here, so the only path
  without a parent is the root.
- The text of the diagnostics: the notice, the advisory and the printed workload. The
  notice is a boolean and the advisory is the profile name it would print.
- `Display` for `BinaryTarget`, and how a path is rendered as an OS string. A manifest path
  is passed to cargo as its components joined by `/`.
- The metadata query's own use of `--manifest-path`. The package list is given as is.
