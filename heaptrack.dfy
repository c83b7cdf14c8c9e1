/** The heaptrack command line that profiles the chosen executable. */
module Heaptrack {
  import opened Types

  const OutputFlag: string := "--output"
  const RawFlag: string := "--raw"

  /** The arguments handed to `heaptrack`: the output pair when an output file is given,
      the raw flag when raw recording is on, then the executable and its arguments. */
  function HeaptrackCommand(opts: HeaptrackOpts, target: string, args: seq<string>): seq<string> {
    (if opts.output.Some? then [OutputFlag, opts.output.value] else [])
    + (if opts.raw then [RawFlag] else [])
    + [target] + args
  }

  /** Builds the argument list one push at a time and reports how the profiler ended;
      `exitSuccess` stands for the exit status of the profiler process. */
  method RunHeaptrack(target: string, args: seq<string>, opts: HeaptrackOpts, exitSuccess: bool)
    returns (argv: seq<string>, r: Result<()>)
    ensures argv == HeaptrackCommand(opts, target, args)
    ensures r == if exitSuccess then Ok(()) else Err(HeaptrackFailed)
  {
    argv := [];
    if opts.output.Some? {
      argv := argv + [OutputFlag, opts.output.value];
    }
    if opts.raw {
      argv := argv + [RawFlag];
    }
    argv := argv + [target];
    argv := argv + args;
    if !exitSuccess {
      return argv, Err(HeaptrackFailed);
    }
    r := Ok(());
  }

  /** How heaptrack reads the argument list back: its options first, then the program to
      run, then that program's arguments. */
  function DecodeHeaptrack(argv: seq<string>): Option<(HeaptrackOpts, string, seq<string>)> {
    var (output, rest) := if |argv| >= 2 && argv[0] == OutputFlag then (Some(argv[1]), argv[2..]) else (None, argv);
    var (raw, rest') := if rest != [] && rest[0] == RawFlag then (true, rest[1..]) else (false, rest);
    if rest' == [] then None else Some((HeaptrackOpts(output, raw), rest'[0], rest'[1..]))
  }

  /** The command reads back as the options, executable and arguments it was built from,
      as long as the executable is not spelled like one of heaptrack's own options. */
  lemma HeaptrackCommandDecodes(opts: HeaptrackOpts, target: string, args: seq<string>)
    requires target != OutputFlag && target != RawFlag
    ensures DecodeHeaptrack(HeaptrackCommand(opts, target, args)) == Some((opts, target, args))
  {
    var tail := (if opts.raw then [RawFlag] else []) + [target] + args;
    if opts.output.Some? {
      assert HeaptrackCommand(opts, target, args) == [OutputFlag, opts.output.value] + tail;
      assert ([OutputFlag, opts.output.value] + tail)[2..] == tail;
    } else {
      assert HeaptrackCommand(opts, target, args) == [] + tail;
    }
    if opts.raw {
      assert tail == [RawFlag] + ([target] + args);
      assert tail[1..] == [target] + args;
    } else {
      assert tail == [] + ([target] + args);
    }
    assert ([target] + args)[1..] == args;
  }

  /** The executable sits right after heaptrack's options, and everything after it is
      forwarded in order. */
  lemma HeaptrackCommandLayout(opts: HeaptrackOpts, target: string, args: seq<string>)
    ensures var n := (if opts.output.Some? then 2 else 0) + (if opts.raw then 1 else 0);
      var argv := HeaptrackCommand(opts, target, args);
      && |argv| == n + 1 + |args|
      && argv[n] == target
      && argv[n + 1..] == args
      && (opts.output.Some? ==> argv[..2] == [OutputFlag, opts.output.value])
      && (opts.raw ==> argv[n - 1] == RawFlag)
  {
  }
}
