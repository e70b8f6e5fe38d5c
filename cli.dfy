/**
 * The verbosity-resolution policy of the command line (`CliModifier for
 * GlobalArguments`): the global flags are merged, in a fixed order of
 * precedence, into the one optional filter handed to the logging sink, and
 * two predicates tell the output layer whether to drop colour and whether to
 * write JSON.
 */
module Cli {

  import opened Wrappers
  import VerbosityFlag
  import Tracing

  /** The global flags: `--json`, `--plain`, `--debug` and the `-v`/`-q` counters. */
  datatype GlobalArguments = GlobalArguments(
    jsonFlag: bool,
    plainFlag: bool,
    debugFlag: bool,
    verbose: VerbosityFlag.Verbosity)

  /** The filter the repeated `-v`/`-q` flags ask for, before any other flag is applied. */
  function CountLevel(args: GlobalArguments): VerbosityFlag.LevelFilter
  {
    VerbosityFlag.LogLevelFilter(args.verbose)
  }

  /** The `tracing` filter bearing the same name as a `log` filter. */
  function SameNamed(f: VerbosityFlag.LevelFilter): (t: Tracing.LevelFilter)
    ensures Tracing.Rank(t) == VerbosityFlag.Rank(f)
  {
    match f
    case Off => Tracing.OFF
    case Error => Tracing.ERROR
    case Warn => Tracing.WARN
    case Info => Tracing.INFO
    case Debug => Tracing.DEBUG
    case Trace => Tracing.TRACE
  }

  /** The final conversion of `verbosity_filter`: print the `log` filter's name, parse it back. */
  function ConvertByName(f: VerbosityFlag.LevelFilter): Option<Tracing.LevelFilter>
  {
    Tracing.FromStr(VerbosityFlag.AsStr(f))
  }

  /** `verbosity_filter`: the machine-readable modes first, then `--debug`, then the count. */
  function VerbosityFilter(args: GlobalArguments): Option<Tracing.LevelFilter>
  {
    if args.plainFlag || args.jsonFlag then
      Some(Tracing.INFO)
    else
      var fromCount := CountLevel(args);
      if VerbosityFlag.Below(fromCount, VerbosityFlag.Debug) && args.debugFlag then
        Some(Tracing.DEBUG)
      else
        ConvertByName(fromCount)
  }

  /** `is_uncolored`. */
  function IsUncolored(args: GlobalArguments): bool
  {
    args.plainFlag || args.jsonFlag
  }

  /** `is_json`. */
  function IsJson(args: GlobalArguments): bool
  {
    args.jsonFlag
  }

  /**
   * The conversion by name never loses a level: each of the six `log`
   * filters comes back as the `tracing` filter of the same name, so the
   * conversion is never `None`.
   */
  lemma ConvertByNameKeepsLevel(f: VerbosityFlag.LevelFilter)
    ensures ConvertByName(f) == Some(SameNamed(f))
  {
    var t := SameNamed(f);
    var s := VerbosityFlag.AsStr(f);
    assert Tracing.EqIgnoreAsciiCase(s, Tracing.Name(t)) by {
      match f
      case Off => assert s == ['O', 'F', 'F'];
      case Error => assert s == ['E', 'R', 'R', 'O', 'R'];
      case Warn => assert s == ['W', 'A', 'R', 'N'];
      case Info => assert s == ['I', 'N', 'F', 'O'];
      case Debug => assert s == ['D', 'E', 'B', 'U', 'G'];
      case Trace => assert s == ['T', 'R', 'A', 'C', 'E'];
    }
    Tracing.ParsesOwnName(t, s);
  }

  /** `verbosity_filter` is total: it always yields a filter, never the ambient default. */
  lemma VerbosityFilterIsSome(args: GlobalArguments)
    ensures VerbosityFilter(args).Some?
  {
    ConvertByNameKeepsLevel(CountLevel(args));
  }

  /** `--plain` or `--json` forces `INFO`, whatever `--debug` and the counters say. */
  lemma MachineReadableForcesInfo(args: GlobalArguments, debug: bool, count: VerbosityFlag.Verbosity)
    requires args.plainFlag || args.jsonFlag
    ensures VerbosityFilter(args) == Some(Tracing.INFO)
    ensures VerbosityFilter(args.(debugFlag := debug, verbose := count)) == VerbosityFilter(args)
  {
  }

  /** Without a machine-readable mode, `--debug` lifts a count below `Debug` to exactly `DEBUG`. */
  lemma DebugRaisesToDebug(args: GlobalArguments)
    requires !args.plainFlag && !args.jsonFlag && args.debugFlag
    requires VerbosityFlag.Below(CountLevel(args), VerbosityFlag.Debug)
    ensures VerbosityFilter(args) == Some(Tracing.DEBUG)
  {
  }

  /** When the count already asks for `Debug` or `Trace`, `--debug` changes nothing. */
  lemma DebugNoEffectWhenDeep(args: GlobalArguments)
    requires !args.plainFlag && !args.jsonFlag
    requires !VerbosityFlag.Below(CountLevel(args), VerbosityFlag.Debug)
    ensures VerbosityFilter(args) == Some(SameNamed(CountLevel(args)))
    ensures VerbosityFilter(args) == VerbosityFilter(args.(debugFlag := !args.debugFlag))
  {
    ConvertByNameKeepsLevel(CountLevel(args));
  }

  /**
   * With no `--json`, `--plain` or `--debug`, the result is the count-derived
   * filter carried over by name; with no `-v` or `-q` as well, it is the
   * `INFO` baseline of `Verbosity<InfoLevel>`.
   */
  lemma PlainCountCarriedOver(args: GlobalArguments)
    requires !args.plainFlag && !args.jsonFlag && !args.debugFlag
    ensures VerbosityFilter(args) == Some(SameNamed(CountLevel(args)))
    ensures args.verbose.verbose == args.verbose.quiet ==> VerbosityFilter(args) == Some(Tracing.INFO)
  {
    ConvertByNameKeepsLevel(CountLevel(args));
    VerbosityFlag.CountIsNetSteps(args.verbose);
  }

  /**
   * Outside the machine-readable modes the resolved filter is never less
   * verbose than the count asks for, and differs from it only by the
   * `--debug` override.
   */
  lemma NeverLessVerboseThanCount(args: GlobalArguments)
    requires !args.plainFlag && !args.jsonFlag
    ensures VerbosityFilter(args).Some?
    ensures Tracing.Rank(VerbosityFilter(args).value) >= VerbosityFlag.Rank(CountLevel(args))
    ensures VerbosityFilter(args) != Some(SameNamed(CountLevel(args))) ==> args.debugFlag
  {
    ConvertByNameKeepsLevel(CountLevel(args));
  }

  /**
   * The precedence chain equals a flat reference rule: `INFO` in a
   * machine-readable mode; otherwise the count's filter, raised to at least
   * `DEBUG` when `--debug` is given.
   */
  lemma MatchesReferenceRule(args: GlobalArguments)
    ensures VerbosityFilter(args) ==
      if args.plainFlag || args.jsonFlag then Some(Tracing.INFO)
      else if args.debugFlag then Some(Tracing.Max(Tracing.DEBUG, SameNamed(CountLevel(args))))
      else Some(SameNamed(CountLevel(args)))
  {
    ConvertByNameKeepsLevel(CountLevel(args));
  }

  /** Uncoloured output is exactly the machine-readable modes, which always log at `INFO`. */
  lemma UncoloredMeansInfo(args: GlobalArguments)
    ensures IsUncolored(args) <==> args.plainFlag || args.jsonFlag
    ensures IsUncolored(args) ==> VerbosityFilter(args) == Some(Tracing.INFO)
  {
  }

  /** JSON output follows `--json` alone; it implies uncoloured output. */
  lemma IsJsonOnlyFollowsJsonFlag(args: GlobalArguments, other: GlobalArguments)
    requires other.jsonFlag == args.jsonFlag
    ensures IsJson(args) == args.jsonFlag
    ensures IsJson(other) == IsJson(args)
    ensures IsJson(args) ==> IsUncolored(args)
  {
  }
}
